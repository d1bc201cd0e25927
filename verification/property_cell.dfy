/**
 * The behaviour every generated setter shares, whatever the macro family:
 * compare the stored value with the argument and, only when they differ,
 * store the argument and emit the change signal once. The classes of the
 * family modules are proved against `Set`; the lemmas here say what a
 * caller of one or several setter calls can rely on.
 */
module PropertyCell {

  /**
   * One setter call: whether it reported a change, the value stored
   * afterwards, and the signals it emitted, each given with the value
   * stored when it was emitted.
   */
  datatype Outcome<T> = Outcome(changed: bool, stored: T, emitted: seq<T>)

  /** A setter called with `v` on a field holding `stored`. */
  function Set<T(==)>(stored: T, v: T): (o: Outcome<T>)
    ensures o.stored == v
    ensures o.changed <==> stored != v
    ensures |o.emitted| == (if o.changed then 1 else 0)
    ensures forall e :: e in o.emitted ==> e == v
  {
    if stored != v then Outcome(true, v, [v]) else Outcome(false, stored, [])
  }

  /** The setter bodies without a signal: the same comparison, assignment and result, nothing emitted. */
  function Assign<T(==)>(stored: T, v: T): (o: Outcome<T>)
    ensures o == Set(stored, v).(emitted := [])
  {
    if stored != v then Outcome(true, v, []) else Outcome(false, stored, [])
  }

  /** A second call with the same value reports no change and emits nothing. */
  lemma SetTwice<T>(stored: T, v: T)
    ensures Set(Set(stored, v).stored, v) == Outcome(false, v, [])
  {
  }

  /** What a sequence of setter calls leaves behind: the final value and every signal, in order. */
  datatype History<T> = History(final: T, emitted: seq<T>)

  /** The setter called with each of `vs` in turn, starting from a field holding `stored`. */
  function Replay<T(==)>(stored: T, vs: seq<T>): History<T>
    decreases |vs|
  {
    if vs == [] then History(stored, [])
    else
      var o := Set(stored, vs[0]);
      var h := Replay(o.stored, vs[1..]);
      History(h.final, o.emitted + h.emitted)
  }

  /** No signal repeats the value that was already there: each reports a real change. */
  ghost predicate EachSignalAChange<T>(initial: T, emitted: seq<T>)
  {
    (emitted != [] ==> emitted[0] != initial) &&
    forall i :: 0 < i < |emitted| ==> emitted[i] != emitted[i - 1]
  }

  /**
   * After any sequence of setter calls the field holds the last argument
   * (or the initial value if there was none), there are at most as many
   * signals as calls, every signal announces a real change, a silent
   * sequence leaves the value as it was, and the last signal announces the
   * value the field ends up holding.
   */
  lemma {:induction false} ReplayNotifiesOnlyChanges<T>(stored: T, vs: seq<T>)
    ensures var h := Replay(stored, vs);
      (vs == [] ==> h.final == stored) &&
      (vs != [] ==> h.final == vs[|vs| - 1]) &&
      |h.emitted| <= |vs| &&
      EachSignalAChange(stored, h.emitted) &&
      (h.emitted == [] ==> h.final == stored) &&
      (h.emitted != [] ==> h.emitted[|h.emitted| - 1] == h.final)
    decreases |vs|
  {
    if vs != [] {
      var o := Set(stored, vs[0]);
      var tail := vs[1..];
      ReplayNotifiesOnlyChanges(o.stored, tail);
      var h := Replay(o.stored, tail);
      assert Replay(stored, vs) == History(h.final, o.emitted + h.emitted);
      if tail != [] {
        assert tail[|tail| - 1] == vs[|vs| - 1];
      }
      var all := o.emitted + h.emitted;
      if o.changed {
        assert all[0] == vs[0] && vs[0] != stored;
        forall i | 0 < i < |all| ensures all[i] != all[i - 1] {
          if i == 1 {
            assert all[1] == h.emitted[0] && all[0] == o.stored;
          } else {
            assert all[i] == h.emitted[i - 1] && all[i - 1] == h.emitted[i - 2];
          }
        }
      } else {
        assert all == h.emitted;
        assert o.stored == stored;
      }
    }
  }

  /** Two calls with one value in a row notify exactly as one call does. */
  lemma {:induction false} RepeatedCallIsSilent<T>(stored: T, vs: seq<T>, v: T)
    ensures Replay(stored, vs + [v, v]) == Replay(stored, vs + [v])
    decreases |vs|
  {
    if vs == [] {
      var o := Set(stored, v);
      assert vs + [v, v] == [v, v] && vs + [v] == [v];
      assert [v, v][1..] == [v];
      assert [v][1..] == [];
      assert Replay(v, []) == History(v, []);
      assert Replay(v, [v]) == History(v, []);
      assert Replay(stored, [v]) == History(v, o.emitted);
      assert Replay(stored, [v, v]) == History(v, o.emitted);
    } else {
      assert (vs + [v, v])[1..] == vs[1..] + [v, v];
      assert (vs + [v])[1..] == vs[1..] + [v];
      RepeatedCallIsSilent(Set(stored, vs[0]).stored, vs[1..], v);
    }
  }

  /** Whether a generated property lets callers write it, only announces changes, or is fixed. */
  datatype Access = Writable | ReadOnly | Constant

  /** The members a property macro generates into the host class. */
  datatype Role = Member | Getter | Setter | Reset | Notifier
}
