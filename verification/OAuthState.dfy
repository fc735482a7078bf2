/**
 The single-use nonce store behind the OAuth `state` parameter (src/auth/OAuthStateStore.ts);
 section 10.12 of RFC 6749 is why it exists. Times are milliseconds of the process clock.
 */
module OAuthState {

  /** The stored nonces with the time each one expires. */
  type States = map<string, int>

  function Pruned(states: States, now: int): States {
    map n | n in states && now <= states[n] :: states[n]
  }

  class OAuthStateStore {
    var states: States
    const ttlMs: int

    constructor (ttlMs: int)
      ensures states == map[] && this.ttlMs == ttlMs
    {
      states := map[];
      this.ttlMs := ttlMs;
    }

    /** Deletes expired nonces while iterating over the keys of the map. */
    method Prune(now: int)
      modifies this
      ensures states == Pruned(old(states), now)
    {
      var keys := states.Keys;
      while keys != {}
        invariant keys <= states.Keys
        invariant forall n :: n in states ==> n in old(states) && states[n] == old(states)[n]
        invariant forall n :: n in old(states) && n !in keys ==> (n in states <==> now <= old(states)[n])
        invariant forall n :: n in keys ==> n in states
        decreases keys
      {
        var key :| key in keys;
        if now > states[key] {
          states := states - {key};
        }
        keys := keys - {key};
      }
    }

    /** `nonce` is what `randomBytes` drew. The clock is read twice, for the pruning pass and for the expiry time. */
    method Generate(nonce: string, prunedAt: int, now: int)
      modifies this
      ensures states == AfterGenerate(old(states), nonce, prunedAt, now, ttlMs, true)
    {
      Prune(prunedAt);
      states := states[nonce := now + ttlMs];
    }

    method Consume(state: string, now: int) returns (accepted: bool)
      modifies this
      ensures accepted == Answer(old(states), state, now)
      ensures states == AfterConsume(old(states), state)
    {
      if state !in states {
        return false;
      }
      var expiresAt := states[state];
      states := states - {state};
      accepted := now <= expiresAt;
    }
  }

  // Whole histories of one store

  datatype Op =
    | Generate(nonce: string, prunedAt: int, now: int)
    | Consume(nonce: string, now: int)

  /** With `pruning` off, the store that never forgets an expired nonce. */
  function AfterGenerate(states: States, nonce: string, prunedAt: int, now: int, ttl: int, pruning: bool): States {
    (if pruning then Pruned(states, prunedAt) else states)[nonce := now + ttl]
  }

  function AfterConsume(states: States, nonce: string): States {
    states - {nonce}
  }

  function Answer(states: States, nonce: string, now: int): bool {
    nonce in states && now <= states[nonce]
  }

  /** The store after a history that started with an empty store. */
  function After(history: seq<Op>, ttl: int, pruning: bool): States {
    if history == [] then map[]
    else
      var before := After(history[..|history| - 1], ttl, pruning);
      match history[|history| - 1]
      case Generate(nonce, prunedAt, now) => AfterGenerate(before, nonce, prunedAt, now, ttl, pruning)
      case Consume(nonce, _) => AfterConsume(before, nonce)
  }

  /** `g` is where `nonce` was generated, and nobody has tried it since. */
  ghost predicate Outstanding(history: seq<Op>, nonce: string, g: int) {
    && 0 <= g < |history|
    && history[g].Generate? && history[g].nonce == nonce
    && forall k :: g < k < |history| ==> !(history[k].Consume? && history[k].nonce == nonce)
  }

  /** The rule the store promises, in terms of the history alone. */
  ghost predicate Acceptable(history: seq<Op>, nonce: string, now: int, ttl: int) {
    exists g :: Outstanding(history, nonce, g) && now <= history[g].now + ttl
  }

  function FirstReading(op: Op): int {
    if op.Generate? then op.prunedAt else op.now
  }

  ghost predicate ClockNeverGoesBack(history: seq<Op>) {
    && (forall j :: 0 <= j < |history| ==> FirstReading(history[j]) <= history[j].now)
    && (forall j, k :: 0 <= j < k < |history| ==> history[j].now <= FirstReading(history[k]))
  }

  ghost predicate NoncesAreFresh(history: seq<Op>) {
    forall j, k :: 0 <= j < k < |history| && history[j].Generate? && history[k].Generate?
      ==> history[j].nonce != history[k].nonce
  }

  /** Everything stored is outstanding, with its own expiry time. */
  lemma {:induction false} StoredIsOutstanding(history: seq<Op>, ttl: int, pruning: bool, nonce: string)
    returns (g: int)
    requires nonce in After(history, ttl, pruning)
    ensures Outstanding(history, nonce, g)
    ensures After(history, ttl, pruning)[nonce] == history[g].now + ttl
  {
    var n := |history| - 1;
    var last := history[n];
    if last.Generate? && last.nonce == nonce {
      g := n;
    } else {
      g := StoredIsOutstanding(history[..n], ttl, pruning, nonce);
    }
  }

  /** Some later `Generate` ran its pruning pass at a time after the nonce generated at `g` had expired. */
  ghost predicate PrunedSince(history: seq<Op>, g: nat, ttl: int)
    requires g < |history|
  {
    exists k :: g < k < |history| && history[k].Generate? && history[k].prunedAt > history[g].now + ttl
  }

  /** Everything outstanding is stored, unless a pruning pass removed it. This needs no assumption about the clock. */
  lemma {:induction false} OutstandingIsStored(history: seq<Op>, ttl: int, pruning: bool, nonce: string, g: int)
    requires NoncesAreFresh(history) && Outstanding(history, nonce, g)
    ensures nonce in After(history, ttl, pruning) <==> !(pruning && PrunedSince(history, g, ttl))
    ensures nonce in After(history, ttl, pruning) ==> After(history, ttl, pruning)[nonce] == history[g].now + ttl
  {
    var n := |history| - 1;
    if g < n {
      var before := history[..n];
      assert Outstanding(before, nonce, g);
      OutstandingIsStored(before, ttl, pruning, nonce, g);
      if PrunedSince(before, g, ttl) {
        var k :| g < k < n && before[k].Generate? && before[k].prunedAt > before[g].now + ttl;
        assert history[k].Generate? && history[k].prunedAt > history[g].now + ttl;
      }
    }
  }

  /**
   The exact rule, on every clock: an answer is `true` for the generated, never since consumed, unexpired nonces,
   except those that an earlier reading of the clock had already declared expired during a pruning pass.
   */
  lemma AnswerExactly(history: seq<Op>, nonce: string, now: int, ttl: int, pruning: bool)
    requires NoncesAreFresh(history)
    ensures Answer(After(history, ttl, pruning), nonce, now)
            <==> exists g :: Outstanding(history, nonce, g) && now <= history[g].now + ttl
                             && !(pruning && PrunedSince(history, g, ttl))
  {
    if Answer(After(history, ttl, pruning), nonce, now) {
      var g := StoredIsOutstanding(history, ttl, pruning, nonce);
      OutstandingIsStored(history, ttl, pruning, nonce, g);
    }
    if g :| Outstanding(history, nonce, g) && now <= history[g].now + ttl
              && !(pruning && PrunedSince(history, g, ttl)) {
      OutstandingIsStored(history, ttl, pruning, nonce, g);
    }
  }

  /**
   With a clock that does not go back, pruning changes no answer: the store and the store that never forgets both
   accept exactly the generated, never since consumed, unexpired nonces.
   */
  lemma AnswersFollowTheHistory(history: seq<Op>, nonce: string, now: int, ttl: int, pruning: bool)
    requires NoncesAreFresh(history)
    requires ClockNeverGoesBack(history + [Consume(nonce, now)])
    ensures Answer(After(history, ttl, pruning), nonce, now) <==> Acceptable(history, nonce, now, ttl)
  {
    var all := history + [Consume(nonce, now)];
    AnswerExactly(history, nonce, now, ttl, pruning);
    if g :| Outstanding(history, nonce, g) && now <= history[g].now + ttl {
      forall k | g < k < |history|
        ensures FirstReading(history[k]) <= history[g].now + ttl
      {
        assert FirstReading(all[k]) <= all[k].now <= FirstReading(all[|history|]);
      }
    }
  }

  /** A nonce that was tried once is refused from then on, whatever happened to it first. */
  lemma ConsumedOnlyOnce(history: seq<Op>, nonce: string, first: int, second: int, ttl: int)
    ensures !Answer(After(history + [Consume(nonce, first)], ttl, true), nonce, second)
  {
    var longer := history + [Consume(nonce, first)];
    assert longer[..|history|] == history;
  }

  /** The clock matters: after it goes back, a pruned nonce is refused at a time at which it has not expired. */
  lemma ClockGoingBackBreaksTheRule()
    ensures var history := [Generate("a", 0, 0), Generate("b", 20, 20)];
            NoncesAreFresh(history)
            && Acceptable(history, "a", 5, 10)
            && !Answer(After(history, 10, true), "a", 5)
            && Answer(After(history, 10, false), "a", 5)
  {
    var history := [Generate("a", 0, 0), Generate("b", 20, 20)];
    assert history[..1] == [Generate("a", 0, 0)] && history[..1][..0] == [];
    assert Outstanding(history, "a", 0);
    assert After(history[..1], 10, true) == map["a" := 10];
    assert After(history[..1], 10, false) == map["a" := 10];
  }
}
