/**
 * The README feature lists: a list built by pushing an entry for each
 * enabled option, in a fixed order. A list of gates (option enabled?,
 * entry) describes every such builder; `Enabled` is the list it produces.
 */
module GatedList {

  datatype Gate = Gate(on: bool, entry: string)

  /** The entries of the enabled gates, in gate order. */
  function Enabled(gs: seq<Gate>): seq<string>
    decreases |gs|
  {
    if gs == [] then []
    else (if gs[0].on then [gs[0].entry] else []) + Enabled(gs[1..])
  }

  /** How many gates are enabled. */
  function CountOn(gs: seq<Gate>): nat
    decreases |gs|
  {
    if gs == [] then 0 else (if gs[0].on then 1 else 0) + CountOn(gs[1..])
  }

  /** One entry per enabled gate, so never more entries than gates. */
  lemma {:induction false} EnabledLength(gs: seq<Gate>)
    ensures |Enabled(gs)| == CountOn(gs) <= |gs|
    decreases |gs|
  {
    if gs != [] {
      EnabledLength(gs[1..]);
    }
  }

  /** The entries of earlier gates come before the entries of later gates. */
  lemma {:induction false} EnabledAppend(xs: seq<Gate>, ys: seq<Gate>)
    ensures Enabled(xs + ys) == Enabled(xs) + Enabled(ys)
    decreases |xs|
  {
    if xs == [] {
      assert xs + ys == ys;
    } else {
      assert (xs + ys)[1..] == xs[1..] + ys;
      EnabledAppend(xs[1..], ys);
    }
  }

  /** An entry is listed exactly when some enabled gate carries it. */
  lemma {:induction false} EnabledMember(gs: seq<Gate>, e: string)
    ensures e in Enabled(gs) <==> exists i :: 0 <= i < |gs| && gs[i].on && gs[i].entry == e
    decreases |gs|
  {
    if gs != [] {
      EnabledMember(gs[1..], e);
      if e in Enabled(gs[1..]) {
        var i :| 0 <= i < |gs[1..]| && gs[1..][i].on && gs[1..][i].entry == e;
        assert gs[i + 1] == gs[1..][i];
      }
      if exists i :: 0 <= i < |gs| && gs[i].on && gs[i].entry == e {
        var i :| 0 <= i < |gs| && gs[i].on && gs[i].entry == e;
        if i > 0 {
          assert gs[1..][i - 1] == gs[i];
        }
      }
    }
  }

  /** With every gate off, the list is empty. */
  lemma {:induction false} AllOffEmpty(gs: seq<Gate>)
    requires forall i :: 0 <= i < |gs| ==> !gs[i].on
    ensures Enabled(gs) == []
    decreases |gs|
  {
    if gs != [] {
      AllOffEmpty(gs[1..]);
    }
  }

  /** One conditional push extends the list built from the earlier gates. */
  lemma PushStep(gs: seq<Gate>, k: nat, before: seq<string>, after: seq<string>)
    requires k < |gs| && before == Enabled(gs[..k])
    requires after == before + (if gs[k].on then [gs[k].entry] else [])
    ensures after == Enabled(gs[..k + 1])
  {
    assert gs[..k + 1] == gs[..k] + [gs[k]];
    EnabledAppend(gs[..k], [gs[k]]);
  }

  /** 1 for an enabled option, 0 otherwise. */
  function Count(b: bool): nat
  {
    if b then 1 else 0
  }
}
