/**
 Tables whose entries expire, as both the download tokens (internal/objects/token.go) and the admin
 sessions (internal/admin/session.go) are kept: an expired entry is refused when it is checked, and
 removed some time later by a cleanup.
 */
module Expiry {
  import opened Wrappers

  datatype Entry<+V> = Entry(value: V, expiresAt: int)

  /** time.Now().After(expiresAt) */
  predicate Expired<V>(e: Entry<V>, now: int) {
    now > e.expiresAt
  }

  function Check<V>(m: map<string, Entry<V>>, key: string, now: int): Option<Entry<V>> {
    if key in m && !Expired(m[key], now) then Some(m[key]) else None
  }

  function Purge<V>(m: map<string, Entry<V>>, now: int): map<string, Entry<V>> {
    map k | k in m && !Expired(m[k], now) :: m[k]
  }

  // ---------------------------------------------------------------- histories

  /** `Put` overwrites, as a Go map does; `Insert` fails on a key that is present, as a primary key does. */
  datatype Op<+V> =
    | Put(key: string, entry: Entry<V>)
    | Insert(key: string, entry: Entry<V>)
    | Remove(key: string)
    | Validate(key: string)
    | Cleanup

  datatype Event<+V> = Event(time: int, op: Op<V>)

  function After<V>(m: map<string, Entry<V>>, e: Event<V>): map<string, Entry<V>> {
    match e.op
    case Put(key, entry) => m[key := entry]
    case Insert(key, entry) => if key in m then m else m[key := entry]
    case Remove(key) => Without(m, key)
    case Validate(_) => m
    case Cleanup => Purge(m, e.time)
  }

  /** What the validations of a history return, in order. */
  function Answers<V>(m: map<string, Entry<V>>, history: seq<Event<V>>): seq<Option<Entry<V>>>
    decreases |history|
  {
    if history == [] then []
    else
      var e := history[0];
      (if e.op.Validate? then [Check(m, e.op.key, e.time)] else []) + Answers(After(m, e), history[1..])
  }

  function WithoutCleanups<V>(history: seq<Event<V>>): seq<Event<V>> {
    if history == [] then []
    else (if history[0].op.Cleanup? then [] else [history[0]]) + WithoutCleanups(history[1..])
  }

  /** Events happen at or after `now`, in the order of a clock that does not go back. */
  ghost predicate InOrder<V>(history: seq<Event<V>>, now: int)
    decreases |history|
  {
    history != [] ==> now <= history[0].time && InOrder(history[1..], history[0].time)
  }

  /** No inserted key was ever used before: keys are 32 random bytes. */
  ghost predicate FreshKeys<V>(history: seq<Event<V>>, used: set<string>)
    decreases |history|
  {
    history != [] ==>
      (history[0].op.Insert? ==> history[0].op.key !in used)
      && FreshKeys(history[1..],
                   if history[0].op.Put? || history[0].op.Insert? then used + {history[0].op.key} else used)
  }

  /** `thin` is `full` without some entries that have expired by now. */
  ghost predicate Thinned<V>(thin: map<string, Entry<V>>, full: map<string, Entry<V>>, now: int) {
    && (forall k :: k in thin ==> k in full && thin[k] == full[k])
    && (forall k :: k in full && k !in thin ==> Expired(full[k], now))
  }

  lemma EventKeepsThinned<V>(thin: map<string, Entry<V>>, full: map<string, Entry<V>>, now: int, e: Event<V>)
    requires Thinned(thin, full, now) && now <= e.time
    requires e.op.Insert? ==> e.op.key !in full
    ensures Thinned(After(thin, e), if e.op.Cleanup? then full else After(full, e), e.time)
    ensures e.op.Validate? ==> Check(thin, e.op.key, e.time) == Check(full, e.op.key, e.time)
  {
  }

  lemma {:induction false} ThinnedAnswersAlike<V>(thin: map<string, Entry<V>>, full: map<string, Entry<V>>, now: int,
                                                 history: seq<Event<V>>, used: set<string>)
    requires Thinned(thin, full, now) && InOrder(history, now)
    requires FreshKeys(history, used) && full.Keys <= used
    ensures Answers(thin, history) == Answers(full, WithoutCleanups(history))
    decreases |history|
  {
    if history != [] {
      var e, rest := history[0], history[1..];
      EventKeepsThinned(thin, full, now, e);
      var used' := if e.op.Put? || e.op.Insert? then used + {e.op.key} else used;
      if e.op.Cleanup? {
        ThinnedAnswersAlike(After(thin, e), full, e.time, rest, used');
        assert [] + WithoutCleanups(rest) == WithoutCleanups(rest);
        assert [] + Answers(After(thin, e), rest) == Answers(After(thin, e), rest);
      } else {
        ThinnedAnswersAlike(After(thin, e), After(full, e), e.time, rest, used');
        var kept := WithoutCleanups(history);
        assert kept == [e] + WithoutCleanups(rest);
        assert kept[0] == e && kept[1..] == WithoutCleanups(rest);
      }
    }
  }

  /**
   Cleanup is invisible to validation: two histories that differ only in their cleanups, wherever and however
   often these run, give the same answers to the same validations.
   */
  lemma CleanupIsInvisible<V>(m: map<string, Entry<V>>, h1: seq<Event<V>>, h2: seq<Event<V>>, now: int)
    requires InOrder(h1, now) && InOrder(h2, now) && FreshKeys(h1, m.Keys) && FreshKeys(h2, m.Keys)
    requires WithoutCleanups(h1) == WithoutCleanups(h2)
    ensures Answers(m, h1) == Answers(m, h2)
  {
    ThinnedAnswersAlike(m, m, now, h1, m.Keys);
    ThinnedAnswersAlike(m, m, now, h2, m.Keys);
  }

  // ---------------------------------------------------------------- what each operation does to an answer

  /** An entry that has been put, or inserted under an unused key, is what is found, until it has expired. */
  lemma AddedIsFound<V>(m: map<string, Entry<V>>, key: string, e: Entry<V>, time: int, now: int)
    ensures Check(After(m, Event(time, Put(key, e))), key, now) == if now <= e.expiresAt then Some(e) else None
    ensures key !in m ==>
              Check(After(m, Event(time, Insert(key, e))), key, now) == if now <= e.expiresAt then Some(e) else None
    ensures key in m ==> Check(After(m, Event(time, Insert(key, e))), key, now) == Check(m, key, now)
  {
  }

  /** A removed entry is never found, and no operation on one key changes the answer for another. */
  lemma OthersAreFoundAsBefore<V>(m: map<string, Entry<V>>, key: string, other: string, e: Entry<V>, time: int,
                                  now: int)
    ensures Check(After(m, Event(time, Remove(key))), key, now) == None
    ensures key != other ==>
              && Check(After(m, Event(time, Put(key, e))), other, now) == Check(m, other, now)
              && Check(After(m, Event(time, Insert(key, e))), other, now) == Check(m, other, now)
              && Check(After(m, Event(time, Remove(key))), other, now) == Check(m, other, now)
  {
  }

  // ---------------------------------------------------------------- what the answers are

  /** The table after a whole history. */
  function AfterAll<V>(m: map<string, Entry<V>>, history: seq<Event<V>>): map<string, Entry<V>>
    decreases |history|
  {
    if history == [] then m else AfterAll(After(m, history[0]), history[1..])
  }

  /** What one event is answered with. */
  function Answer<V>(m: map<string, Entry<V>>, e: Event<V>): seq<Option<Entry<V>>> {
    if e.op.Validate? then [Check(m, e.op.key, e.time)] else []
  }

  lemma AnswersFirst<V>(m: map<string, Entry<V>>, e: Event<V>, rest: seq<Event<V>>)
    ensures Answers(m, [e] + rest) == Answer(m, e) + Answers(After(m, e), rest)
    ensures AfterAll(m, [e] + rest) == AfterAll(After(m, e), rest)
  {
    assert ([e] + rest)[1..] == rest;
  }

  /** Each validation is answered from the table as it is then, and nothing else is answered. */
  lemma {:induction false} EachValidationIsAnswered<V>(m: map<string, Entry<V>>, history: seq<Event<V>>, e: Event<V>)
    ensures Answers(m, history + [e]) == Answers(m, history) + Answer(AfterAll(m, history), e)
    decreases |history|
  {
    if history == [] {
      AnswersFirst(m, e, []);
      assert [e] + [] == [e] == [] + [e];
    } else {
      var first, rest := history[0], history[1..];
      var before, answers, last := Answer(m, first), Answers(After(m, first), rest), Answer(AfterAll(m, history), e);
      EachValidationIsAnswered(After(m, first), rest, e);
      AnswersFirst(m, first, rest);
      AnswersFirst(m, first, rest + [e]);
      assert history == [first] + rest && history + [e] == [first] + (rest + [e]);
      assert before + (answers + last) == (before + answers) + last;
    }
  }

  lemma {:induction false} WithoutCleanupBetween<V>(a: seq<Event<V>>, c: Event<V>, b: seq<Event<V>>)
    requires c.op.Cleanup?
    ensures WithoutCleanups(a + [c] + b) == WithoutCleanups(a + b)
  {
    if a == [] {
      assert a + [c] + b == [c] + b && a + b == b && ([c] + b)[1..] == b;
    } else {
      assert (a + [c] + b)[1..] == a[1..] + [c] + b && (a + b)[1..] == a[1..] + b;
      WithoutCleanupBetween(a[1..], c, b);
    }
  }

  lemma {:induction false} OrderWithout<V>(a: seq<Event<V>>, c: Event<V>, b: seq<Event<V>>, now: int, used: set<string>)
    requires c.op.Cleanup? && InOrder(a + [c] + b, now) && FreshKeys(a + [c] + b, used)
    ensures InOrder(a + b, now) && FreshKeys(a + b, used)
    decreases |a|
  {
    if a == [] {
      assert a + [c] + b == [c] + b && a + b == b && ([c] + b)[1..] == b;
    } else {
      var used' := if a[0].op.Put? || a[0].op.Insert? then used + {a[0].op.key} else used;
      assert (a + [c] + b)[1..] == a[1..] + [c] + b && (a + b)[1..] == a[1..] + b;
      OrderWithout(a[1..], c, b, a[0].time, used');
    }
  }

  /** One more cleanup, anywhere in any history, changes no answer. */
  lemma OneMoreCleanup<V>(m: map<string, Entry<V>>, a: seq<Event<V>>, time: int, b: seq<Event<V>>, now: int)
    requires InOrder(a + [Event(time, Cleanup)] + b, now) && FreshKeys(a + [Event(time, Cleanup)] + b, m.Keys)
    ensures Answers(m, a + [Event(time, Cleanup)] + b) == Answers(m, a + b)
  {
    var c: Event<V> := Event(time, Cleanup);
    OrderWithout(a, c, b, now, m.Keys);
    WithoutCleanupBetween(a, c, b);
    CleanupIsInvisible(m, a + [c] + b, a + b, now);
  }
}
