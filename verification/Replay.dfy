/** Crash and resume of a stage that only asks keyed, recorded calls. The stage is any
    deterministic strategy over the replies it has seen; a recorded key is answered from its
    row, any other key costs one provider call. A provider failure is seen but not recorded. */
module Replay {

  datatype Answer<+T> = Failure | Text(value: T)

  datatype Move<+K, +R> = Ask(key: K) | Done(result: R)

  type Strategy<!K, !T, !R> = seq<Answer<T>> -> Move<K, R>

  datatype Outcome<+R> = Finished(result: R) | Crashed | OutOfFuel

  /** How one process ended: its outcome, the recorded responses, and the keys for which the
      provider was called and answered. */
  datatype Trail<K, +T, +R> = Trail(outcome: Outcome<R>, memo: map<K, T>, provider: seq<K>)

  function Record<K, T>(memo: map<K, T>, key: K, a: Answer<T>): map<K, T> {
    if a.Text? then memo[key := a.value] else memo
  }

  /** One process. `tape` is what the provider answers before the process dies; running out of
      tape on an unrecorded key is the crash. `fuel` bounds the calls of a stage entry. */
  function Drive<K, T, R>(s: Strategy<K, T, R>, memo: map<K, T>, tape: seq<Answer<T>>,
                          seen: seq<Answer<T>>, fuel: nat): Trail<K, T, R>
    decreases fuel
  {
    if fuel == 0 then Trail(OutOfFuel, memo, [])
    else match s(seen)
      case Done(r) => Trail(Finished(r), memo, [])
      case Ask(key) =>
        if key in memo then Drive(s, memo, tape, seen + [Text(memo[key])], fuel - 1)
        else if tape == [] then Trail(Crashed, memo, [])
        else
          var t := Drive(s, Record(memo, key, tape[0]), tape[1..], seen + [tape[0]], fuel - 1);
          t.(provider := [key] + t.provider)
  }

  /** Processes one after the other, each on what its predecessors recorded, until one ends. */
  function Resume<K, T, R>(s: Strategy<K, T, R>, memo: map<K, T>, tapes: seq<seq<Answer<T>>>, fuel: nat): Trail<K, T, R>
    decreases |tapes|
  {
    if tapes == [] then Trail(Crashed, memo, [])
    else
      var first := Drive(s, memo, tapes[0], [], fuel);
      if first.outcome.Crashed? then
        var rest := Resume(s, first.memo, tapes[1..], fuel);
        rest.(provider := first.provider + rest.provider)
      else first
  }

  function Joined<T>(tapes: seq<seq<T>>): seq<T> {
    if tapes == [] then [] else tapes[0] + Joined(tapes[1..])
  }

  predicate NoFailure<T>(tape: seq<Answer<T>>) {
    forall j :: 0 <= j < |tape| ==> tape[j].Text?
  }

  predicate Extends<K, T(==)>(memo: map<K, T>, later: map<K, T>) {
    forall k :: k in memo ==> k in later && later[k] == memo[k]
  }

  /** A process only adds to the records, and calls the provider only for unrecorded keys. */
  lemma {:induction false} DriveGrows<K, T, R>(s: Strategy<K, T, R>, memo: map<K, T>, tape: seq<Answer<T>>,
                                              seen: seq<Answer<T>>, fuel: nat)
    ensures var t := Drive(s, memo, tape, seen, fuel);
      && Extends(memo, t.memo)
      && forall j :: 0 <= j < |t.provider| ==> t.provider[j] !in memo
    decreases fuel
  {
    if fuel > 0 && s(seen).Ask? {
      var key := s(seen).key;
      if key in memo {
        DriveGrows(s, memo, tape, seen + [Text(memo[key])], fuel - 1);
      } else if tape != [] {
        DriveGrows(s, Record(memo, key, tape[0]), tape[1..], seen + [tape[0]], fuel - 1);
      }
    }
  }

  /** Some reply is the value that was asked for under the key. */
  ghost predicate Answered<K, T, R>(s: Strategy<K, T, R>, replies: seq<Answer<T>>, key: K, value: T) {
    exists k :: 0 <= k < |replies| && s(replies[..k]) == Ask(key) && replies[k] == Text(value)
  }

  /** Every reply of the stage is the recorded response of its key. */
  ghost predicate AllRecorded<K(!new), T(!new), R>(s: Strategy<K, T, R>, replies: seq<Answer<T>>, memo: map<K, T>) {
    forall key, value :: Answered(s, replies, key, value) ==> key in memo && memo[key] == value
  }

  lemma AnsweredLater<K, T, R>(s: Strategy<K, T, R>, replies: seq<Answer<T>>, a: Answer<T>, key: K, value: T)
    requires Answered(s, replies + [a], key, value)
    ensures Answered(s, replies, key, value) || (s(replies) == Ask(key) && a == Text(value))
  {
    var all := replies + [a];
    var k :| 0 <= k < |all| && s(all[..k]) == Ask(key) && all[k] == Text(value);
    if k < |replies| {
      assert all[..k] == replies[..k] && all[k] == replies[k];
    } else {
      assert all[..k] == replies;
    }
  }

  /** A process that finishes was told its result by the strategy, on replies it has recorded. */
  lemma {:induction false} FinishedIsReached<K(!new), T(!new), R>(s: Strategy<K, T, R>, memo: map<K, T>, tape: seq<Answer<T>>,
                                                     seen: seq<Answer<T>>, fuel: nat)
    requires Drive(s, memo, tape, seen, fuel).outcome.Finished? && AllRecorded(s, seen, memo)
    ensures var t := Drive(s, memo, tape, seen, fuel);
      exists replies :: s(replies) == Done(t.outcome.result) && AllRecorded(s, replies, t.memo)
    decreases fuel
  {
    if s(seen).Ask? {
      var key := s(seen).key;
      var a := if key in memo then Text(memo[key]) else tape[0];
      var next := Record(memo, key, a);
      forall k, value | Answered(s, seen + [a], k, value) ensures k in next && next[k] == value {
        AnsweredLater(s, seen, a, k, value);
      }
      if key in memo {
        assert next == memo;
        FinishedIsReached(s, memo, tape, seen + [a], fuel - 1);
      } else {
        FinishedIsReached(s, next, tape[1..], seen + [a], fuel - 1);
      }
    }
  }

  /** From any common point: a crashed process, then a process that starts over on its records,
      against one process that got both tapes. */
  lemma {:induction false} RestartMatches<K, T, R>(s: Strategy<K, T, R>, memo: map<K, T>, later: map<K, T>,
                                                  t1: seq<Answer<T>>, t2: seq<Answer<T>>, seen: seq<Answer<T>>, fuel: nat)
    requires NoFailure(t1) && Drive(s, memo, t1, seen, fuel).outcome.Crashed?
    requires later == Drive(s, memo, t1, seen, fuel).memo
    ensures var a := Drive(s, memo, t1, seen, fuel);
      var b := Drive(s, later, t2, seen, fuel);
      Drive(s, memo, t1 + t2, seen, fuel) == b.(provider := a.provider + b.provider)
    decreases fuel
  {
    var key := s(seen).key;
    DriveGrows(s, memo, t1, seen, fuel);
    if key in memo {
      RestartMatches(s, memo, later, t1, t2, seen + [Text(memo[key])], fuel - 1);
    } else if t1 == [] {
      assert t1 + t2 == t2;
    } else {
      DriveGrows(s, Record(memo, key, t1[0]), t1[1..], seen + [t1[0]], fuel - 1);
      assert later[key] == t1[0].value;
      assert (t1 + t2)[1..] == t1[1..] + t2;
      RestartMatches(s, Record(memo, key, t1[0]), later, t1[1..], t2, seen + [t1[0]], fuel - 1);
    }
  }

  /** A process that ends without crashing never looks at the rest of its tape. */
  lemma {:induction false} UnusedTape<K, T, R>(s: Strategy<K, T, R>, memo: map<K, T>, t1: seq<Answer<T>>, t2: seq<Answer<T>>,
                                              seen: seq<Answer<T>>, fuel: nat)
    requires !Drive(s, memo, t1, seen, fuel).outcome.Crashed?
    ensures Drive(s, memo, t1 + t2, seen, fuel) == Drive(s, memo, t1, seen, fuel)
    decreases fuel
  {
    if fuel > 0 && s(seen).Ask? {
      var key := s(seen).key;
      if key in memo {
        UnusedTape(s, memo, t1, t2, seen + [Text(memo[key])], fuel - 1);
      } else {
        assert (t1 + t2)[1..] == t1[1..] + t2;
        UnusedTape(s, Record(memo, key, t1[0]), t1[1..], t2, seen + [t1[0]], fuel - 1);
      }
    }
  }

  /** A process that did not crash is repeated by its records alone. */
  lemma {:induction false} RecordsRepeat<K, T, R>(s: Strategy<K, T, R>, memo: map<K, T>, later: map<K, T>,
                                                 t1: seq<Answer<T>>, t2: seq<Answer<T>>, seen: seq<Answer<T>>, fuel: nat)
    requires NoFailure(t1) && !Drive(s, memo, t1, seen, fuel).outcome.Crashed?
    requires later == Drive(s, memo, t1, seen, fuel).memo
    ensures Drive(s, later, t2, seen, fuel) == Trail(Drive(s, memo, t1, seen, fuel).outcome, later, [])
    decreases fuel
  {
    if fuel > 0 && s(seen).Ask? {
      var key := s(seen).key;
      DriveGrows(s, memo, t1, seen, fuel);
      if key in memo {
        RecordsRepeat(s, memo, later, t1, t2, seen + [Text(memo[key])], fuel - 1);
      } else {
        DriveGrows(s, Record(memo, key, t1[0]), t1[1..], seen + [t1[0]], fuel - 1);
        RecordsRepeat(s, Record(memo, key, t1[0]), later, t1[1..], t2, seen + [t1[0]], fuel - 1);
      }
    }
  }

  /** Wherever a process was stopped, it and the next one on its records do together what one
      process with both tapes does. */
  lemma NextProcessMatches<K, T, R>(s: Strategy<K, T, R>, memo: map<K, T>, t1: seq<Answer<T>>, t2: seq<Answer<T>>, fuel: nat)
    requires NoFailure(t1)
    ensures var a := Drive(s, memo, t1, [], fuel);
      var b := Drive(s, a.memo, t2, [], fuel);
      Drive(s, memo, t1 + t2, [], fuel) == b.(provider := a.provider + b.provider)
  {
    var a := Drive(s, memo, t1, [], fuel);
    if a.outcome.Crashed? {
      RestartMatches(s, memo, a.memo, t1, t2, [], fuel);
    } else {
      RecordsRepeat(s, memo, a.memo, t1, t2, [], fuel);
      UnusedTape(s, memo, t1, t2, [], fuel);
    }
  }

  /** Crash-anywhere replay: however often the stage is interrupted, the processes together
      reach the result, the records and the provider calls of one uninterrupted process that
      was given the same answers in the same order. */
  lemma {:induction false} ReplayIsUninterrupted<K, T, R>(s: Strategy<K, T, R>, memo: map<K, T>,
                                                         tapes: seq<seq<Answer<T>>>, fuel: nat)
    requires tapes != [] && forall j :: 0 <= j < |tapes| - 1 ==> NoFailure(tapes[j])
    ensures Resume(s, memo, tapes, fuel) == Drive(s, memo, Joined(tapes), [], fuel)
    decreases |tapes|
  {
    var first := Drive(s, memo, tapes[0], [], fuel);
    if |tapes| == 1 {
      assert Joined(tapes) == tapes[0] + [] == tapes[0];
      assert Resume(s, first.memo, tapes[1..], fuel) == Trail(Crashed, first.memo, []);
      assert first.provider + [] == first.provider;
    } else if first.outcome.Crashed? {
      ReplayIsUninterrupted(s, first.memo, tapes[1..], fuel);
      RestartMatches(s, memo, first.memo, tapes[0], Joined(tapes[1..]), [], fuel);
    } else {
      UnusedTape(s, memo, tapes[0], Joined(tapes[1..]), [], fuel);
    }
  }

  // ----- when the hypothesis can be dropped --------------------------------------------

  /** No key is asked for twice. */
  ghost predicate NeverReasks<K, T(!new), R>(s: Strategy<K, T, R>) {
    forall seen, i :: 0 <= i < |seen| && s(seen[..i]).Ask? && s(seen).Ask? ==> s(seen[..i]).key != s(seen).key
  }

  /** The stage survives at most one provider failure. */
  ghost predicate EndsOnSecondFailure<K, T(!new), R>(s: Strategy<K, T, R>) {
    forall seen :: !NoFailure(seen) && s(seen).Ask? ==> s(seen + [Failure]).Done?
  }

  ghost predicate EndsWithin<K, T(!new), R>(s: Strategy<K, T, R>, most: nat) {
    forall seen :: s(seen).Ask? ==> |seen| < most
  }

  lemma {:induction false} NeverOutOfFuel<K, T(!new), R>(s: Strategy<K, T, R>, most: nat, memo: map<K, T>, tape: seq<Answer<T>>,
                                                  seen: seq<Answer<T>>, fuel: nat)
    requires EndsWithin(s, most) && |seen| <= most < fuel + |seen|
    ensures !Drive(s, memo, tape, seen, fuel).outcome.OutOfFuel?
    decreases fuel
  {
    if fuel > 0 && s(seen).Ask? {
      var key := s(seen).key;
      if key in memo {
        NeverOutOfFuel(s, most, memo, tape, seen + [Text(memo[key])], fuel - 1);
      } else if tape != [] {
        NeverOutOfFuel(s, most, Record(memo, key, tape[0]), tape[1..], seen + [tape[0]], fuel - 1);
      }
    }
  }

  /** A key whose call failed is never recorded. */
  lemma {:induction false} FailedKeyStaysOut<K, T(!new), R>(s: Strategy<K, T, R>, memo: map<K, T>, tape: seq<Answer<T>>,
                                                     seen: seq<Answer<T>>, fuel: nat, i: nat, key: K)
    requires NeverReasks(s) && i < |seen| && s(seen[..i]) == Ask(key) && key !in memo
    ensures key !in Drive(s, memo, tape, seen, fuel).memo
    decreases fuel
  {
    if fuel > 0 && s(seen).Ask? {
      var k := s(seen).key;
      assert k != key;
      if k in memo {
        assert (seen + [Text(memo[k])])[..i] == seen[..i];
        FailedKeyStaysOut(s, memo, tape, seen + [Text(memo[k])], fuel - 1, i, key);
      } else if tape != [] {
        assert (seen + [tape[0]])[..i] == seen[..i];
        FailedKeyStaysOut(s, Record(memo, k, tape[0]), tape[1..], seen + [tape[0]], fuel - 1, i, key);
      }
    }
  }

  /** A failed process does not survive a second failure, so a crash found none behind it. */
  lemma {:induction false} CrashAfterOneFailure<K, T(!new), R>(s: Strategy<K, T, R>, memo: map<K, T>, tape: seq<Answer<T>>,
                                                        seen: seq<Answer<T>>, fuel: nat)
    requires EndsOnSecondFailure(s) && !NoFailure(seen) && Drive(s, memo, tape, seen, fuel).outcome.Crashed?
    ensures NoFailure(tape)
    decreases fuel
  {
    var key := s(seen).key;
    var j :| 0 <= j < |seen| && !seen[j].Text?;
    if key in memo {
      assert (seen + [Text(memo[key])])[j] == seen[j];
      CrashAfterOneFailure(s, memo, tape, seen + [Text(memo[key])], fuel - 1);
    } else if tape != [] {
      assert (seen + [tape[0]])[j] == seen[j];
      CrashAfterOneFailure(s, Record(memo, key, tape[0]), tape[1..], seen + [tape[0]], fuel - 1);
      assert forall k :: 0 < k < |tape| ==> tape[k] == tape[1..][k - 1];
    }
  }

  /** The successor of a crashed process spends one more failure where its predecessor failed, and
      crashes where its predecessor did. */
  lemma {:induction false} SuccessorCrashes<K, T(!new), R>(s: Strategy<K, T, R>, memo: map<K, T>, later: map<K, T>,
                                                    t1: seq<Answer<T>>, seen: seq<Answer<T>>, fuel: nat)
    requires NeverReasks(s) && EndsOnSecondFailure(s)
    requires Drive(s, memo, t1, seen, fuel).outcome.Crashed? && later == Drive(s, memo, t1, seen, fuel).memo
    ensures Drive(s, later, if NoFailure(t1) then [] else [Failure], seen, fuel).outcome.Crashed?
    decreases fuel
  {
    var key := s(seen).key;
    DriveGrows(s, memo, t1, seen, fuel);
    if key in memo {
      SuccessorCrashes(s, memo, later, t1, seen + [Text(memo[key])], fuel - 1);
    } else if t1 != [] {
      var next := Record(memo, key, t1[0]);
      var now := seen + [t1[0]];
      DriveGrows(s, next, t1[1..], now, fuel - 1);
      SuccessorCrashes(s, next, later, t1[1..], now, fuel - 1);
      assert forall k :: 0 < k < |t1| ==> t1[k] == t1[1..][k - 1];
      if t1[0].Failure? {
        assert now[|seen|] == t1[0] && now[..|seen|] == seen;
        CrashAfterOneFailure(s, next, t1[1..], now, fuel - 1);
        FailedKeyStaysOut(s, next, t1[1..], now, fuel - 1, |seen|, key);
        var last: seq<Answer<T>> := [Failure];
        assert last[1..] == [];
      }
    }
  }

  /** One process that got a failure and then another one where it would have crashed ends. */
  lemma {:induction false} SecondFailureEnds<K, T(!new), R>(s: Strategy<K, T, R>, most: nat, memo: map<K, T>,
                                                     t1: seq<Answer<T>>, seen: seq<Answer<T>>, fuel: nat)
    requires EndsOnSecondFailure(s) && EndsWithin(s, most) && |seen| + fuel > most
    requires Drive(s, memo, t1, seen, fuel).outcome.Crashed? && (!NoFailure(t1) || !NoFailure(seen))
    ensures Drive(s, memo, t1 + [Failure], seen, fuel).outcome.Finished?
    decreases fuel
  {
    var key := s(seen).key;
    var tape := t1 + [Failure];
    if !NoFailure(seen) {
      var j :| 0 <= j < |seen| && !seen[j].Text?;
      assert forall a :: (seen + [a])[j] == seen[j];
    }
    if key in memo {
      SecondFailureEnds(s, most, memo, t1, seen + [Text(memo[key])], fuel - 1);
    } else if t1 == [] {
      assert tape[0] == Failure;
    } else {
      assert tape[1..] == t1[1..] + [Failure] && tape[0] == t1[0];
      if !NoFailure(t1) {
        var j :| 0 <= j < |t1| && !t1[j].Text?;
        if j == 0 { assert (seen + [t1[0]])[|seen|] == t1[0]; } else { assert t1[1..][j - 1] == t1[j]; }
      }
      SecondFailureEnds(s, most, Record(memo, key, t1[0]), t1[1..], seen + [t1[0]], fuel - 1);
    }
  }

  ghost predicate ResumesAlike<K, T, R>(s: Strategy<K, T, R>, memo: map<K, T>, t1: seq<Answer<T>>,
                                        t2: seq<Answer<T>>, fuel: nat) {
    Resume(s, memo, [t1, t2], fuel).outcome == Drive(s, memo, t1 + t2, [], fuel).outcome
  }

  /** For a stage that re-asks no key and survives at most one provider failure, a crash can be
      resumed faithfully, whatever the provider answers next, exactly when the provider had not
      failed before it: a survived failure is forgotten by the crash and asked again. */
  lemma ReplayExactlyWithoutFailures<K, T(!new), R>(s: Strategy<K, T, R>, most: nat, memo: map<K, T>,
                                          t1: seq<Answer<T>>, fuel: nat)
    requires NeverReasks(s) && EndsOnSecondFailure(s) && EndsWithin(s, most) && fuel > most
    requires Drive(s, memo, t1, [], fuel).outcome.Crashed?
    ensures NoFailure(t1) <==> forall t2 :: ResumesAlike(s, memo, t1, t2, fuel)
  {
    if NoFailure(t1) {
      forall t2 ensures ResumesAlike(s, memo, t1, t2, fuel) {
        assert [t1, t2][1..] == [t2] && [t2][1..] == [];
        assert Joined([t2]) == t2 + Joined<Answer<T>>([]) == t2;
        assert Joined([t1, t2]) == t1 + t2;
        ReplayIsUninterrupted(s, memo, [t1, t2], fuel);
      }
    } else {
      SuccessorCrashes(s, memo, Drive(s, memo, t1, [], fuel).memo, t1, [], fuel);
      SecondFailureEnds(s, most, memo, t1, [], fuel);
      ResumeTwo(s, memo, t1, [Failure], fuel);
      assert !ResumesAlike(s, memo, t1, [Failure], fuel);
    }
  }

  lemma ResumeTwo<K, T, R>(s: Strategy<K, T, R>, memo: map<K, T>, t1: seq<Answer<T>>, t2: seq<Answer<T>>, fuel: nat)
    requires Drive(s, memo, t1, [], fuel).outcome.Crashed?
    ensures Resume(s, memo, [t1, t2], fuel).outcome == Drive(s, Drive(s, memo, t1, [], fuel).memo, t2, [], fuel).outcome
  {
    assert [t1, t2][1..] == [t2] && [t2][1..] == [];
    var first := Drive(s, memo, t1, [], fuel);
    assert Resume(s, first.memo, [t2], fuel).outcome == Drive(s, first.memo, t2, [], fuel).outcome;
  }
}
