/**
 * The sliding-window limiter of api/src/helpers/rateLimiter.js, and the copies
 * inlined in the chapter-application and contact-form handlers. Timestamps are
 * milliseconds; the clock reading `now` is a parameter.
 */
module RateLimit {
  import opened Tables

  const DefaultMaxRequests := 5
  const DefaultWindowMs := 3600000

  /** The timestamps the filter `now - ts < windowMs` keeps. */
  function InWindow(now: int, windowMs: int): int -> bool {
    ts => now - ts < windowMs
  }

  /** The stored list for id after the filter, the stored list being `[]` when the id is new. */
  function Recent(stored: map<string, seq<int>>, id: string, now: int, windowMs: int): (r: seq<int>)
    ensures forall ts :: ts in r <==> (id in stored && ts in stored[id] && now - ts < windowMs)
    ensures |r| <= if id in stored then |stored[id]| else 0
  {
    Filter(if id in stored then stored[id] else [], InWindow(now, windowMs))
  }

  /** Whether a check of `id` at `now` is let through: fewer than `maxRequests` recent timestamps. */
  function Allows(stored: map<string, seq<int>>, id: string, now: int, maxRequests: int, windowMs: int): bool {
    |Recent(stored, id, now, windowMs)| < maxRequests
  }

  /** The `limiters` map after a check of `id`: its recent timestamps, plus `now` when allowed; other ids untouched. */
  function AfterCheck(stored: map<string, seq<int>>, id: string, now: int, maxRequests: int, windowMs: int): (r: map<string, seq<int>>)
    ensures r.Keys == stored.Keys + {id}
    ensures forall other :: other in stored && other != id ==> r[other] == stored[other]
    ensures r[id] == Recent(stored, id, now, windowMs) + (if Allows(stored, id, now, maxRequests, windowMs) then [now] else [])
  {
    var recent := Recent(stored, id, now, windowMs);
    stored[id := if |recent| < maxRequests then recent + [now] else recent]
  }

  /** The map key `${action}:${key}`. */
  function LimiterId(action: string, key: string): string {
    action + ":" + key
  }

  /** For a fixed action, distinct keys get distinct entries. */
  lemma LimiterIdInjective(action: string, k1: string, k2: string)
    requires k1 != k2
    ensures LimiterId(action, k1) != LimiterId(action, k2)
  {
    var n := |action| + 1;
    assert LimiterId(action, k1)[n..] == k1;
    assert LimiterId(action, k2)[n..] == k2;
  }

  /** A call that sees a full window refuses it. */
  lemma {:induction false} FullWindowDenies(stored: seq<int>, now: int, windowMs: int, maxRequests: int)
    requires |stored| >= maxRequests
    requires forall ts :: ts in stored ==> now - ts < windowMs
    ensures |Filter(stored, InWindow(now, windowMs))| >= maxRequests
  {
    FilterAll(stored, InWindow(now, windowMs));
  }

  /**
   * `getClientIP(request)`: the `x-forwarded-for` header, else `client-ip`, else
   * `'unknown'`; an absent header is `""`.
   */
  function GetClientIP(forwardedFor: string, clientIp: string): (r: string)
    ensures r != ""
    ensures forwardedFor != "" ==> r == forwardedFor
    ensures forwardedFor == "" && clientIp != "" ==> r == clientIp
    ensures forwardedFor == "" && clientIp == "" ==> r == "unknown"
  {
    if forwardedFor != "" then forwardedFor else if clientIp != "" then clientIp else "unknown"
  }

  /** The module-level `limiters` map of rateLimiter.js. */
  class Limiter {
    var limiters: map<string, seq<int>>

    constructor()
      ensures limiters == map[]
    {
      limiters := map[];
    }

    /**
     * `checkRateLimit(key, action, maxRequests, windowMs)`: allowed iff fewer than
     * `maxRequests` timestamps of this id are in the window; the id's list becomes
     * those timestamps, plus `now` when allowed; no other id changes.
     */
    method CheckRateLimit(key: string, action: string, now: int, maxRequests: int := DefaultMaxRequests, windowMs: int := DefaultWindowMs)
      returns (allowed: bool)
      modifies this
      ensures allowed == Allows(old(limiters), LimiterId(action, key), now, maxRequests, windowMs)
      ensures limiters == AfterCheck(old(limiters), LimiterId(action, key), now, maxRequests, windowMs)
    {
      var id := LimiterId(action, key);
      if id !in limiters {
        limiters := limiters[id := []];
      }
      var timestamps := Filter(limiters[id], InWindow(now, windowMs));
      if |timestamps| >= maxRequests {
        limiters := limiters[id := timestamps];
        return false;
      }
      timestamps := timestamps + [now];
      limiters := limiters[id := timestamps];
      return true;
    }
  }

  /**
   * After a call at `now` with a positive window, the id's list holds only
   * timestamps within the window, and at most `maxRequests` of them when it held
   * at most that many before.
   */
  lemma CheckedListBounded(stored: map<string, seq<int>>, id: string, now: int, maxRequests: int, windowMs: int)
    requires windowMs > 0 && maxRequests >= 0
    requires id in stored ==> |stored[id]| <= maxRequests
    ensures var next := AfterCheck(stored, id, now, maxRequests, windowMs)[id];
      |next| <= maxRequests && forall ts :: ts in next ==> now - ts < windowMs
  {
    var recent := Recent(stored, id, now, windowMs);
    if |recent| < maxRequests {
      var next := recent + [now];
      forall ts | ts in next ensures now - ts < windowMs {
        if ts != now {
          assert ts in recent;
        }
      }
    }
  }

  /**
   * The limiter inlined in chapterApplication.js and contactForm.js: one map from
   * client address to timestamps, a fixed limit and window, and on refusal the
   * stored list is left as it was.
   */
  class InlineLimiter {
    var rateLimitMap: map<string, seq<int>>
    const maxRequests: int
    const windowMs: int

    constructor(maxRequests: int, windowMs: int)
      ensures rateLimitMap == map[] && this.maxRequests == maxRequests && this.windowMs == windowMs
    {
      rateLimitMap := map[];
      this.maxRequests := maxRequests;
      this.windowMs := windowMs;
    }

    /**
     * `checkRateLimit(clientIP)`: allowed iff fewer than `maxRequests` stored
     * timestamps are in the window. On allow the list becomes those timestamps plus
     * `now`; on refusal it is unchanged (a new address gets `[]`).
     */
    method CheckRateLimit(clientIp: string, now: int) returns (allowed: bool)
      modifies this
      ensures allowed == Allows(old(rateLimitMap), clientIp, now, maxRequests, windowMs)
      ensures allowed ==> rateLimitMap == AfterCheck(old(rateLimitMap), clientIp, now, maxRequests, windowMs)
      ensures !allowed ==> rateLimitMap == old(rateLimitMap)[clientIp :=
             if clientIp in old(rateLimitMap) then old(rateLimitMap)[clientIp] else []]
    {
      if clientIp !in rateLimitMap {
        rateLimitMap := rateLimitMap[clientIp := []];
      }
      var timestamps := Filter(rateLimitMap[clientIp], InWindow(now, windowMs));
      if |timestamps| >= maxRequests {
        return false;
      }
      timestamps := timestamps + [now];
      rateLimitMap := rateLimitMap[clientIp := timestamps];
      return true;
    }
  }
}
