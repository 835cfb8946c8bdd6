/**
  The process-wide cache of repository listings, keyed by the user's cache
  key and the organisation, and its `computeIfAbsent` memoisation.
 */
module RepositoryCache {
  import opened JavaLang

  /** `userKey + "/" + gitOrganisation`; a null organisation is spelled "null". */
  function CacheKey(userKey: string, organisation: Option<string>): string
  {
    userKey + "/" + ValueOf(organisation)
  }

  /** Two user keys without '/' give the same cache key only for the same
      user and the same organisation text, so tenants never share an entry. */
  lemma CacheKeyInjective(user1: string, org1: Option<string>, user2: string, org2: Option<string>)
    requires '/' !in user1 && '/' !in user2
    requires CacheKey(user1, org1) == CacheKey(user2, org2)
    ensures user1 == user2
    ensures ValueOf(org1) == ValueOf(org2)
    ensures org1.Some? && org2.Some? ==> org1 == org2
  {
    var key := CacheKey(user1, org1);
    // the shorter user key would be followed by '/' where the longer one has its own character
    if |user1| < |user2| {
      SlashNotInside(user1, ValueOf(org1), user2, ValueOf(org2));
      assert false;
    } else if |user2| < |user1| {
      SlashNotInside(user2, ValueOf(org2), user1, ValueOf(org1));
      assert false;
    }
    assert user1 == key[..|user1|] == user2;
    assert ValueOf(org1) == key[|user1| + 1..] == ValueOf(org2);
  }

  /** For one user, two organisations share a cache entry exactly when they
      are equal or one is null and the other is literally named "null",
      because a null organisation is concatenated as "null". */
  lemma SameUserKeysCollide(user: string, org1: Option<string>, org2: Option<string>)
    ensures CacheKey(user, org1) == CacheKey(user, org2)
        <==> || org1 == org2
             || (org1.None? && org2 == Some("null"))
             || (org2.None? && org1 == Some("null"))
  {
    if CacheKey(user, org1) == CacheKey(user, org2) {
      var key := CacheKey(user, org1);
      assert ValueOf(org1) == key[|user| + 1..] == ValueOf(org2);
    }
  }

  /** Where the shorter user key ends, the key holds '/', which the longer user key does not. */
  lemma SlashNotInside(short: string, rest1: string, long: string, rest2: string)
    requires '/' !in long
    requires short + "/" + rest1 == long + "/" + rest2
    ensures |short| >= |long|
  {
    var key := short + "/" + rest1;
    assert key[|short|] == '/';
  }

  /** What the remote listing `getRespositoriesForOrganisation` answers when called. */
  datatype Listing = Listed(names: seq<string>) | ListingFailed(message: string)

  /** The cache of repository names per key. `fetches` counts the calls of
      the mapping function, which is where the remote listing happens. */
  class RepositoryCache {
    var entries: map<string, seq<string>>
    var fetches: nat

    constructor ()
      ensures entries == map[] && fetches == 0
    {
      entries := map[];
      fetches := 0;
    }

    /** `computeIfAbsent(key, k -> fetch)`: a present entry is returned
        without fetching; otherwise the fetch runs once, and only a
        successful result is stored. No other key changes. */
    method ComputeIfAbsent(key: string, listing: Listing) returns (r: Outcome<seq<string>>)
      modifies this
      ensures key in old(entries) ==>
                r == Returned(old(entries)[key]) && entries == old(entries) && fetches == old(fetches)
      ensures key !in old(entries) ==> fetches == old(fetches) + 1
      ensures key !in old(entries) && listing.Listed? ==>
                r == Returned(listing.names) && entries == old(entries)[key := listing.names]
      ensures key !in old(entries) && listing.ListingFailed? ==>
                r == Threw(Raised(listing.message)) && entries == old(entries)
    {
      if key in entries {
        return Returned(entries[key]);
      }
      fetches := fetches + 1;
      match listing
      case Listed(names) =>
        entries := entries[key := names];
        r := Returned(names);
      case ListingFailed(message) =>
        r := Threw(Raised(message));
    }
  }
}
