/**
 The trace: for every traced parameter, the values recorded by successive draws.
 A draw appends, in the order of the traced names, the current value of each parameter
 to its list; it fails at the first name the trace has no list for (a `KeyError` in the
 estimator), keeping the appends made before it.
 */
module Traces {
  import opened Results
  import opened Params

  type Trace = map<Param, seq<Value>>

  /** A trace with one empty list per name. */
  function EmptyTrace(names: seq<Param>): (t: Trace)
    ensures forall n :: n in t <==> n in names
    ensures forall n :: n in t ==> t[n] == []
  {
    map n | n in names :: []
  }

  /** Every name has a list in `t`. */
  predicate AllPresent(t: Trace, names: seq<Param>)
  {
    forall i :: 0 <= i < |names| ==> names[i] in t
  }

  /** The names before position `i` all have a list in `t`. */
  predicate PresentBefore(t: Trace, names: seq<Param>, i: int)
    requires 0 <= i <= |names|
  {
    forall j :: 0 <= j < i ==> names[j] in t
  }

  /** The first name (in order) that has no list in `t`, if any. */
  function FirstMissing(t: Trace, names: seq<Param>): (r: Option<Param>)
    ensures r.None? <==> AllPresent(t, names)
    ensures r.Some? ==> r.value in names && r.value !in t
    ensures r.Some? ==> exists i :: 0 <= i < |names| && names[i] == r.value && PresentBefore(t, names, i)
  {
    if names == [] then None
    else if names[0] !in t then Some(names[0])
    else
      var r := FirstMissing(t, names[1..]);
      assert r.Some? ==> exists i :: 0 <= i < |names| && names[i] == r.value && PresentBefore(t, names, i) by {
        if r.Some? {
          var i :| 0 <= i < |names[1..]| && names[1..][i] == r.value && PresentBefore(t, names[1..], i);
          assert PresentBefore(t, names, i + 1) by {
            forall j | 0 <= j < i + 1 ensures names[j] in t {
              if j > 0 { assert names[j] == names[1..][j - 1]; }
            }
          }
        }
      }
      r
  }

  /** The shapes a live trace can have: a list for every traced parameter, or no lists at all (after a pop). */
  predicate FullOrEmpty(t: Trace)
  {
    t == map[] || AllPresent(t, SAMPLERS)
  }

  /**
   A draw keeps a trace full or empty; a draw that fails (on an empty trace) appends
   nothing, so no partial entry is ever written.
   */
  lemma RecordKeepsFullOrEmpty(t: Trace, p: Params)
    requires FullOrEmpty(t)
    ensures FullOrEmpty(Record(t, SAMPLERS, p))
    ensures !AllPresent(t, SAMPLERS) ==> Record(t, SAMPLERS, p) == t == map[]
  {
  }

  /**
   One draw's bookkeeping: for each name in order, append that parameter's value in `p`
   to its list, stopping at the first name without a list.
   */
  function Record(t: Trace, names: seq<Param>, p: Params): (r: Trace)
    ensures r.Keys == t.Keys
  {
    if names == [] then t
    else if names[0] !in t then t
    else Record(t[names[0] := t[names[0]] + [Snapshot(p, names[0])]], names[1..], p)
  }

  /** The bookkeeping of the draws that leave the states `sweeps`, one after the other. */
  function RecordAll(t: Trace, sweeps: seq<Params>): (r: Trace)
    ensures r.Keys == t.Keys
  {
    if sweeps == [] then t
    else Record(RecordAll(t, sweeps[..|sweeps| - 1]), SAMPLERS, sweeps[|sweeps| - 1])
  }

  /** The values of parameter `n` in the states `sweeps`, in order. */
  function Column(sweeps: seq<Params>, n: Param): (c: seq<Value>)
    ensures |c| == |sweeps|
    ensures forall i :: 0 <= i < |sweeps| ==> c[i] == Snapshot(sweeps[i], n)
  {
    seq(|sweeps|, i requires 0 <= i < |sweeps| => Snapshot(sweeps[i], n))
  }

  /**
   When every name has a list, one draw appends exactly one element, the parameter's
   current value, to each named list, and leaves every other list as it was.
   */
  lemma {:induction false} RecordAppendsOne(t: Trace, names: seq<Param>, p: Params)
    requires AllPresent(t, names) && Distinct(names)
    ensures forall n :: n in names ==> Record(t, names, p)[n] == t[n] + [Snapshot(p, n)]
    ensures forall n :: n in t && n !in names ==> Record(t, names, p)[n] == t[n]
  {
    if names != [] {
      var n0 := names[0];
      var t' := t[n0 := t[n0] + [Snapshot(p, n0)]];
      var rest := names[1..];
      assert AllPresent(t', rest) by {
        forall i | 0 <= i < |rest| ensures rest[i] in t' {
          assert rest[i] == names[i + 1];
        }
      }
      assert Distinct(rest) by {
        forall i, j | 0 <= i < j < |rest| ensures rest[i] != rest[j] {
          assert rest[i] == names[i + 1] && rest[j] == names[j + 1];
        }
      }
      RecordAppendsOne(t', rest, p);
      assert Record(t, names, p) == Record(t', rest, p);
      assert n0 !in rest by {
        forall j | 0 <= j < |rest| ensures rest[j] != n0 {
          assert rest[j] == names[j + 1];
        }
      }
      forall n | n in names ensures Record(t, names, p)[n] == t[n] + [Snapshot(p, n)] {
        if n != n0 {
          var i :| 0 <= i < |names| && names[i] == n;
          assert n == rest[i - 1];
        }
      }
    }
  }

  /**
   A trace with no lists at all (as left by popping) makes the next draw fail at the first
   traced name, with nothing appended.
   */
  lemma DrawOnPoppedTrace(p: Params)
    ensures FirstMissing(map[], SAMPLERS) == Some(Alphas)
    ensures Record(map[], SAMPLERS, p) == map[]
  {
  }

  /** One draw on a trace with a list for every traced parameter appends to every list. */
  lemma RecordDrawAppends(t: Trace, p: Params)
    requires AllPresent(t, SAMPLERS)
    ensures forall n :: n in t ==> Record(t, SAMPLERS, p)[n] == t[n] + [Snapshot(p, n)]
  {
    SamplersCoverAllParams();
    RecordAppendsOne(t, SAMPLERS, p);
  }

  /**
   From a trace with a list for every parameter, the draws leaving `sweeps` append to each
   list exactly the parameter's values in those states, in order; so every list grows by
   the number of draws.
   */
  lemma {:induction false} RecordAllAppendsColumns(t: Trace, sweeps: seq<Params>)
    requires AllPresent(t, SAMPLERS)
    ensures forall n :: n in t ==> RecordAll(t, sweeps)[n] == t[n] + Column(sweeps, n)
    ensures forall n :: n in t ==> |RecordAll(t, sweeps)[n]| == |t[n]| + |sweeps|
  {
    if sweeps != [] {
      var k := |sweeps| - 1;
      var front := sweeps[..k];
      RecordAllAppendsColumns(t, front);
      var mid := RecordAll(t, front);
      assert AllPresent(mid, SAMPLERS) by {
        assert mid.Keys == t.Keys;
      }
      RecordDrawAppends(mid, sweeps[k]);
      assert RecordAll(t, sweeps) == Record(mid, SAMPLERS, sweeps[k]);
      forall n | n in t ensures RecordAll(t, sweeps)[n] == t[n] + Column(sweeps, n) {
        assert Column(sweeps, n) == Column(front, n) + [Snapshot(sweeps[k], n)];
      }
    }
  }
}
