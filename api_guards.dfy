/** The in-memory guards of the standalone API (cmd/api/main.go): the
    time-limited idempotency set, the set of revoked session subjects, the
    fixed-window rate limiter, and the CORS origin list. Instants are integer
    seconds passed in as `now`; the mutexes are left out. */
module ApiGuards {
  import opened Wrappers
  import opened Text

  // ---------------------------------------------------------------------
  // Idempotency keys with a time to live

  /** The entries still live at `now`: those not already past their expiry. */
  function Purge(items: map<string, int>, now: int): (r: map<string, int>)
    ensures forall k :: k in r <==> k in items && now <= items[k]
    ensures forall k :: k in r ==> r[k] == items[k]
  {
    map k | k in items && now <= items[k] :: items[k]
  }

  /** A key may be used unless it is stored with an expiry still ahead. */
  predicate Accepts(items: map<string, int>, key: string, now: int) {
    !(key in items && now < items[key])
  }

  /** The table after a use attempt: purged, and the key stamped with a new
      expiry when the attempt succeeded. */
  function AfterTryUse(items: map<string, int>, key: string, ttl: int, now: int): map<string, int> {
    var live := Purge(items, now);
    if Accepts(items, key, now) then live[key := now + ttl] else live
  }

  /** A key never seen before is accepted. */
  lemma TryUseFirstUse(items: map<string, int>, key: string, now: int)
    requires key !in items
    ensures Accepts(items, key, now)
  {
  }

  /** Once accepted, the same key is refused until its time to live has
      passed, and accepted again from then on. */
  lemma TryUseRepeat(items: map<string, int>, key: string, ttl: int, now: int, later: int)
    requires Accepts(items, key, now) && now <= later
    ensures Accepts(AfterTryUse(items, key, ttl, now), key, later) <==> later >= now + ttl
  {
  }

  /** Using one key does not change whether another key is accepted later. */
  lemma TryUseIndependent(items: map<string, int>, key: string, other: string, ttl: int, now: int, later: int)
    requires other != key && now <= later
    ensures Accepts(AfterTryUse(items, key, ttl, now), other, later) == Accepts(items, other, later)
  {
  }

  /** After a use attempt with a non-negative time to live no stored entry is
      already expired. */
  lemma TryUseLeavesNoExpired(items: map<string, int>, key: string, ttl: int, now: int)
    requires ttl >= 0
    ensures forall k :: k in AfterTryUse(items, key, ttl, now) ==> now <= AfterTryUse(items, key, ttl, now)[k]
  {
  }

  class IdemStore {
    var items: map<string, int>

    constructor()
      ensures items == map[]
    {
      items := map[];
    }

    /** Deletes every expired entry, then refuses a key that is still live
        or records it with expiry now + ttl. */
    method TryUse(key: string, ttl: int, now: int) returns (ok: bool)
      modifies this`items
      ensures ok == Accepts(old(items), key, now)
      ensures items == AfterTryUse(old(items), key, ttl, now)
    {
      var todo := items.Keys;
      while todo != {}
        invariant todo <= old(items).Keys
        invariant items == map k | k in old(items) && (k in todo || now <= old(items)[k]) :: old(items)[k]
        decreases |todo|
      {
        var k :| k in todo;
        if now > items[k] {
          items := items - {k};
        }
        todo := todo - {k};
      }
      assert items == Purge(old(items), now);
      if key in items && now < items[key] {
        return false;
      }
      items := items[key := now + ttl];
      return true;
    }
  }

  // ---------------------------------------------------------------------
  // Revoked session subjects

  /** The revocation table after revoking `sub`: subjects are stored trimmed,
      and a blank subject is ignored. */
  function RevokeIn(revoked: map<string, int>, sub: string, now: int): (r: map<string, int>)
    ensures AllSpace(sub) ==> r == revoked
    ensures !AllSpace(sub) ==> r == revoked[TrimSpace(sub) := now]
  {
    var s := TrimSpace(sub);
    if s == "" then revoked else revoked[s := now]
  }

  predicate RevokedIn(revoked: map<string, int>, sub: string) {
    var s := TrimSpace(sub);
    s != "" && s in revoked
  }

  /** A blank subject is never revoked; a revoked subject stays revoked, and
      revoking one subject leaves every subject with a different trimmed
      form as it was. */
  lemma RevocationLaws(revoked: map<string, int>, sub: string, other: string, now: int)
    ensures AllSpace(sub) ==> !RevokedIn(revoked, sub) && RevokeIn(revoked, sub, now) == revoked
    ensures !AllSpace(sub) ==> RevokedIn(RevokeIn(revoked, sub, now), sub)
    ensures TrimSpace(other) != TrimSpace(sub) ==>
      RevokedIn(RevokeIn(revoked, sub, now), other) == RevokedIn(revoked, other)
    ensures RevokedIn(revoked, other) ==> RevokedIn(RevokeIn(revoked, sub, now), other)
  {
  }

  /** Revoking twice keeps one entry, stamped with the later time. */
  lemma RevokeTwice(revoked: map<string, int>, sub: string, t1: int, t2: int)
    requires !AllSpace(sub)
    ensures RevokeIn(RevokeIn(revoked, sub, t1), sub, t2) == RevokeIn(revoked, sub, t2)
    ensures RevokeIn(RevokeIn(revoked, sub, t1), sub, t2).Keys == revoked.Keys + {TrimSpace(sub)}
  {
    UpdateTwice(revoked, TrimSpace(sub), t1, t2);
  }

  lemma UpdateTwice(m: map<string, int>, k: string, a: int, b: int)
    ensures m[k := a][k := b] == m[k := b] && m[k := b].Keys == m.Keys + {k}
  {
  }

  class RevokedStore {
    var revoked: map<string, int>

    constructor()
      ensures revoked == map[]
    {
      revoked := map[];
    }

    method Revoke(sub: string, now: int)
      modifies this`revoked
      ensures revoked == RevokeIn(old(revoked), sub, now)
    {
      var s := TrimSpace(sub);
      if s == "" {
        return;
      }
      revoked := revoked[s := now];
    }

    method IsRevoked(sub: string) returns (r: bool)
      ensures r == RevokedIn(revoked, sub)
      ensures AllSpace(sub) ==> !r
    {
      var s := TrimSpace(sub);
      if s == "" {
        return false;
      }
      return s in revoked;
    }
  }

  // ---------------------------------------------------------------------
  // Fixed-window rate limiting

  datatype Bucket = Bucket(count: int, reset: int)

  /** One call for a key: a missing bucket, or one whose window has passed,
      opens a new window with the call counted; a full window refuses; any
      other call is counted. */
  function Step(b: Option<Bucket>, limit: int, window: int, now: int): (r: (bool, Bucket))
    ensures b.None? || now > b.value.reset ==> r == (true, Bucket(1, now + window))
    ensures b.Some? && now <= b.value.reset ==>
      r.1.reset == b.value.reset && (r.0 <==> b.value.count < limit)
      && r.1.count == (if r.0 then b.value.count + 1 else b.value.count)
  {
    if b.None? || now > b.value.reset then (true, Bucket(1, now + window))
    else if b.value.count >= limit then (false, b.value)
    else (true, b.value.(count := b.value.count + 1))
  }

  /** How many of a key's calls, at the given times, are admitted. */
  function CountAdmitted(b: Option<Bucket>, times: seq<int>, limit: int, window: int): nat
    decreases |times|
  {
    if |times| == 0 then 0
    else
      var r := Step(b, limit, window, times[0]);
      (if r.0 then 1 else 0) + CountAdmitted(Some(r.1), times[1..], limit, window)
  }

  /** Within a window no more calls are admitted than the room left in it. */
  lemma {:induction false} WindowRoom(b: Bucket, times: seq<int>, limit: int, window: int)
    requires forall i :: 0 <= i < |times| ==> times[i] <= b.reset
    ensures CountAdmitted(Some(b), times, limit, window) <= (if limit - b.count > 0 then limit - b.count else 0)
    decreases |times|
  {
    if |times| > 0 {
      var r := Step(Some(b), limit, window, times[0]);
      WindowRoom(r.1, times[1..], limit, window);
    }
  }

  /** A window admits at most `limit` calls in all: the call that opens it
      and those up to its reset. */
  lemma AtMostLimitPerWindow(b: Option<Bucket>, start: int, times: seq<int>, limit: int, window: int)
    requires limit >= 1
    requires b.None? || start > b.value.reset
    requires forall i :: 0 <= i < |times| ==> times[i] <= start + window
    ensures CountAdmitted(b, [start] + times, limit, window) <= limit
  {
    assert ([start] + times)[1..] == times;
    WindowRoom(Bucket(1, start + window), times, limit, window);
  }

  class RateLimiter {
    const limit: int
    const window: int
    var buckets: map<string, Bucket>

    constructor(limit: int, window: int)
      ensures this.limit == limit && this.window == window && buckets == map[]
    {
      this.limit := limit;
      this.window := window;
      buckets := map[];
    }

    /** Admits or refuses one call for `key`; only that key's bucket changes. */
    method Allow(key: string, now: int) returns (ok: bool)
      modifies this`buckets
      ensures var r := Step(if key in old(buckets) then Some(old(buckets)[key]) else None, limit, window, now);
        ok == r.0 && buckets == old(buckets)[key := r.1]
    {
      if key !in buckets || now > buckets[key].reset {
        buckets := buckets[key := Bucket(1, now + window)];
        return true;
      }
      var b := buckets[key];
      if b.count >= limit {
        return false;
      }
      buckets := buckets[key := b.(count := b.count + 1)];
      return true;
    }
  }

  // ---------------------------------------------------------------------
  // Allowed origins

  /** The trimmed non-empty pieces of `parts`, in order. */
  function NonBlank(parts: seq<string>): seq<string>
  {
    if parts == [] then []
    else
      var p := TrimSpace(parts[|parts| - 1]);
      NonBlank(parts[..|parts| - 1]) + (if p != "" then [p] else [])
  }

  /** Every piece kept is non-empty and trimmed. */
  lemma {:induction false} NonBlankClean(parts: seq<string>)
    ensures forall k :: 0 <= k < |NonBlank(parts)| ==> NonBlank(parts)[k] != "" && Trimmed(NonBlank(parts)[k])
  {
    if parts != [] {
      NonBlankClean(parts[..|parts| - 1]);
    }
  }

  /** No kept piece holds a comma when no input piece does. */
  lemma {:induction false} NonBlankNoComma(parts: seq<string>)
    requires forall k :: 0 <= k < |parts| ==> ',' !in parts[k]
    ensures forall k :: 0 <= k < |NonBlank(parts)| ==> ',' !in NonBlank(parts)[k]
  {
    if parts != [] {
      var init := parts[..|parts| - 1];
      assert forall k :: 0 <= k < |init| ==> init[k] == parts[k];
      NonBlankNoComma(init);
      var t := TrimSpace(parts[|parts| - 1]);
      assert forall c :: c in t ==> c in parts[|parts| - 1];
    }
  }

  /** The meaning of ALLOW_ORIGIN: "" or "*" (after trimming) is the
      wildcard; otherwise the trimmed non-empty comma-separated origins,
      falling back to the wildcard if there are none. */
  function AllowedOrigins(raw: string): seq<string> {
    var t := TrimSpace(raw);
    if t == "" || t == "*" then ["*"]
    else
      var o := NonBlank(Split(t, ','));
      if o == [] then ["*"] else o
  }

  /** A list of origins that is the wildcard, or is made of trimmed
      non-empty origins without commas. */
  predicate WellFormedOrigins(o: seq<string>) {
    && |o| >= 1
    && forall i :: 0 <= i < |o| ==> o[i] != "" && Trimmed(o[i]) && ',' !in o[i]
  }

  lemma AllowedOriginsWellFormed(raw: string)
    ensures WellFormedOrigins(AllowedOrigins(raw))
  {
    var t := TrimSpace(raw);
    WildcardWellFormed();
    if !(t == "" || t == "*") {
      var parts := Split(t, ',');
      NonBlankClean(parts);
      NonBlankNoComma(parts);
      var o := NonBlank(parts);
      assert o != [] ==> WellFormedOrigins(o);
    }
  }

  lemma WildcardWellFormed()
    ensures WellFormedOrigins(["*"])
  {
    assert !IsSpace("*"[0]);
  }

  /** Trimmed non-empty pieces are kept as they are. */
  lemma {:induction false} NonBlankOfClean(parts: seq<string>)
    requires forall k :: 0 <= k < |parts| ==> parts[k] != "" && TrimSpace(parts[k]) == parts[k]
    ensures NonBlank(parts) == parts
  {
    if parts != [] {
      var init, last := parts[..|parts| - 1], parts[|parts| - 1];
      assert parts == init + [last];
      NonBlankSnoc(init, last);
      NonBlankOfClean(init);
    }
  }

  /** The pieces of a list with one more element at the end. */
  lemma NonBlankSnoc(init: seq<string>, last: string)
    ensures var p := TrimSpace(last);
      NonBlank(init + [last]) == NonBlank(init) + (if p != "" then [p] else [])
  {
    assert (init + [last])[..|init|] == init;
  }

  /** Joining a well-formed list with commas and parsing it gives the list
      back. */
  lemma AllowedOriginsOfJoin(o: seq<string>)
    requires WellFormedOrigins(o)
    ensures AllowedOrigins(Join(o, ',')) == o
  {
    var j := Join(o, ',');
    JoinClean(o);
    TrimSpaceOfTrimmed(j);
    SplitJoin(o, ',');
    forall k | 0 <= k < |o| ensures TrimSpace(o[k]) == o[k] {
      TrimSpaceOfTrimmed(o[k]);
    }
    NonBlankOfClean(o);
    if j == "*" {
      assert |o| == 1 by {
        if |o| > 1 {
          JoinLong(o, ',');
        }
      }
    }
  }

  lemma {:induction false} JoinLong(o: seq<string>, sep: char)
    requires |o| > 1 && o[0] != ""
    ensures |Join(o, sep)| >= 2
  {
  }

  /** A comma-joined well-formed list is non-empty, trimmed and, as a whole,
      the text its pieces spell out. */
  lemma {:induction false} JoinClean(o: seq<string>)
    requires WellFormedOrigins(o)
    ensures Join(o, ',') != "" && Trimmed(Join(o, ','))
    decreases |o|
  {
    if |o| > 1 {
      JoinClean(o[1..]);
      var rest := Join(o[1..], ',');
      var j := Join(o, ',');
      assert j == o[0] + [','] + rest;
      assert j[0] == o[0][0];
      assert j[|j| - 1] == rest[|rest| - 1];
    }
  }

  /** Splitting undoes joining when no piece holds the separator. */
  lemma {:induction false} SplitJoin(o: seq<string>, sep: char)
    requires |o| >= 1
    requires forall i :: 0 <= i < |o| ==> sep !in o[i]
    ensures Split(Join(o, sep), sep) == o
    decreases |o|
  {
    if |o| == 1 {
      SplitNoSep(o[0], sep);
    } else {
      SplitJoin(o[1..], sep);
      SplitAt(o[0], sep, Join(o[1..], sep));
      assert o == [o[0]] + o[1..];
    }
  }

  /** Parses ALLOW_ORIGIN, appending the trimmed non-empty pieces one by one. */
  method ParseAllowedOrigins(raw: string) returns (origins: seq<string>)
    ensures origins == AllowedOrigins(raw)
    ensures WellFormedOrigins(origins)
  {
    AllowedOriginsWellFormed(raw);
    var t := TrimSpace(raw);
    if t == "" || t == "*" {
      return ["*"];
    }
    origins := KeepNonBlank(Split(t, ','));
    if |origins| == 0 {
      return ["*"];
    }
  }

  /** The loop of parseAllowedOrigins: keeps each trimmed non-empty piece. */
  method KeepNonBlank(parts: seq<string>) returns (origins: seq<string>)
    ensures origins == NonBlank(parts)
  {
    origins := [];
    var i := 0;
    while i < |parts|
      invariant 0 <= i <= |parts|
      invariant origins == NonBlank(parts[..i])
    {
      assert parts[..i + 1][..i] == parts[..i];
      var p := TrimSpace(parts[i]);
      if p != "" {
        origins := origins + [p];
      }
      i := i + 1;
    }
    assert parts[..i] == parts;
  }

  /** The Access-Control-Allow-Origin value for a request's Origin header. */
  function MatchOrigin(originHeader: string, allowed: seq<string>): (r: string)
    ensures var origin := TrimSpace(originHeader);
      allowed == ["*"] ==> r == (if origin != "" then origin else "*")
    ensures var origin := TrimSpace(originHeader);
      allowed != ["*"] && origin in allowed ==> r == origin
    ensures var origin := TrimSpace(originHeader);
      allowed != ["*"] && origin !in allowed ==> r == (if |allowed| > 0 then allowed[0] else "*")
  {
    var origin := TrimSpace(originHeader);
    if |allowed| == 1 && allowed[0] == "*" then (if origin != "" then origin else "*")
    else if origin in allowed then origin
    else if |allowed| > 0 then allowed[0]
    else "*"
  }

  /** Outside wildcard mode an origin that is not listed is never echoed:
      the answer is always one of the allowed origins. */
  lemma MatchOriginStaysListed(originHeader: string, allowed: seq<string>)
    requires |allowed| >= 1 && allowed != ["*"]
    ensures MatchOrigin(originHeader, allowed) in allowed
  {
  }
}
