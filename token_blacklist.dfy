/** The server-side revocation list of access tokens: a map from the raw
    token string to the token's own expiry in epoch milliseconds. */
module TokenBlacklist {

  /** What a sweep at time `now` keeps: the entries whose expiry is not
      strictly before `now`. */
  function Sweep(m: map<string, int>, now: int): map<string, int>
  {
    map t | t in m && m[t] >= now :: m[t]
  }

  /** The tokens a sweep at time `now` evicts. */
  function Expired(m: map<string, int>, now: int): set<string>
  {
    set t | t in m && m[t] < now
  }

  /** A sweep keeps an entry, with its value, exactly when its expiry is at
      or after `now`; an entry expiring at `now` itself survives. */
  lemma SweepKeeps(m: map<string, int>, now: int, t: string)
    ensures t in Sweep(m, now) <==> t in m && m[t] >= now
    ensures t in Sweep(m, now) ==> Sweep(m, now)[t] == m[t]
  {
  }

  /** A sweep never adds keys or changes values: its result is a submap. */
  lemma SweepIsSubmap(m: map<string, int>, now: int)
    ensures Sweep(m, now).Keys <= m.Keys
    ensures forall t :: t in Sweep(m, now) ==> Sweep(m, now)[t] == m[t]
  {
  }

  /** After a sweep every remaining entry expires at or after `now`. */
  lemma SweepLeavesNoExpired(m: map<string, int>, now: int)
    ensures forall t :: t in Sweep(m, now) ==> Sweep(m, now)[t] >= now
    ensures Expired(Sweep(m, now), now) == {}
  {
  }

  /** A second sweep at the same time changes nothing. */
  lemma SweepIdempotent(m: map<string, int>, now: int)
    ensures Sweep(Sweep(m, now), now) == Sweep(m, now)
  {
  }

  /** Two sweeps amount to the later one alone. */
  lemma SweepLaterSubsumes(m: map<string, int>, earlier: int, later: int)
    requires earlier <= later
    ensures Sweep(Sweep(m, earlier), later) == Sweep(m, later)
  {
  }

  /** The entries a sweep drops are exactly the expired ones, so the size
      shrinks by their number. */
  lemma SweepCount(m: map<string, int>, now: int)
    ensures |m| == |Sweep(m, now)| + |Expired(m, now)|
  {
    var kept := Sweep(m, now).Keys;
    var gone := Expired(m, now);
    assert m.Keys == kept + gone;
    assert kept !! gone;
  }

  class TokenBlacklistService {
    /** Token -> expiry in epoch milliseconds. */
    var blacklist: map<string, int>

    constructor ()
      ensures blacklist == map[]
    {
      blacklist := map[];
    }

    /** Insert or overwrite: the token maps to the latest expiry written,
        and every other entry is untouched. */
    method AddToBlacklist(token: string, expirationTime: int)
      modifies this
      ensures blacklist == old(blacklist)[token := expirationTime]
      ensures token in blacklist && blacklist[token] == expirationTime
      ensures forall t :: t != token ==> (t in blacklist <==> t in old(blacklist))
      ensures forall t :: t != token && t in blacklist ==> blacklist[t] == old(blacklist)[t]
    {
      blacklist := blacklist[token := expirationTime];
    }

    /** Pure membership: the stored expiry plays no part. */
    method IsBlacklisted(token: string) returns (isBlacklisted: bool)
      ensures isBlacklisted <==> token in blacklist
    {
      isBlacklisted := token in blacklist;
    }

    /** The periodic sweep, with the clock reading passed in as `now`.
        Returns the number of entries it removed. */
    method RemoveExpiredTokens(now: int) returns (removedCount: int)
      modifies this
      ensures blacklist == Sweep(old(blacklist), now)
      ensures removedCount == |Expired(old(blacklist), now)| >= 0
    {
      var beforeSize := |blacklist|;
      var pending := blacklist.Keys;
      while pending != {}
        invariant pending <= old(blacklist).Keys
        invariant forall t :: t in blacklist <==> t in old(blacklist) && (t in pending || old(blacklist)[t] >= now)
        invariant forall t :: t in blacklist ==> blacklist[t] == old(blacklist)[t]
        decreases pending
      {
        var t :| t in pending;
        if blacklist[t] < now {
          blacklist := blacklist - {t};
        }
        pending := pending - {t};
      }
      assert blacklist == Sweep(old(blacklist), now);
      SweepCount(old(blacklist), now);
      removedCount := beforeSize - |blacklist|;
    }
  }
}
