/**
 * The command recorded when the user edits a job context: on execute it
 * spreads every changed variable type to all contexts of the manager; undo
 * and redo swap the live context with the saved copy (header fields and
 * name-matched variable fields) and spread the types that the swap changed.
 *
 * A context variable is looked up by name the way the host's context
 * classes do it: the first variable with that name is the one returned.
 */
module ContextModify {
  import opened Common

  /** A context variable (an IContextParameter), by value. */
  datatype Param = Param(
    name: string,
    promptNeeded: bool,
    comment: string,
    prompt: string,
    paramType: string,
    value: string)

  /** A context (an IContext), by value: its header fields and its variables in order. */
  datatype Context = Context(
    name: string,
    confirmationNeeded: bool,
    hide: bool,
    params: seq<Param>)

  // ---------------------------------------------------------------------
  // Lookup by name
  // ---------------------------------------------------------------------

  /** Index of the first variable called `n`, or `|ps|` when there is none. */
  function Find(ps: seq<Param>, n: string): (r: nat)
    ensures r <= |ps|
    ensures r < |ps| ==> ps[r].name == n
    ensures forall k :: 0 <= k < r ==> ps[k].name != n
  {
    if ps == [] then 0
    else if ps[0].name == n then 0
    else 1 + Find(ps[1..], n)
  }

  /** Whether a variable called `n` exists (a lookup does not return null). */
  predicate Has(ps: seq<Param>, n: string)
  {
    Find(ps, n) < |ps|
  }

  /** The type of the variable a lookup of `n` returns. */
  function TypeOf(c: Context, n: string): string
    requires Has(c.params, n)
  {
    c.params[Find(c.params, n)].paramType
  }

  /** Two variable lists with the same names at the same places. */
  predicate SameNames(a: seq<Param>, b: seq<Param>)
  {
    |a| == |b| && forall k :: 0 <= k < |a| ==> a[k].name == b[k].name
  }

  /** No two variables share a name. */
  predicate UniqueNames(ps: seq<Param>)
  {
    forall a, b :: 0 <= a < b < |ps| ==> ps[a].name != ps[b].name
  }

  /** A lookup only depends on the names: lists with the same names answer alike. */
  lemma FindSameNames(a: seq<Param>, b: seq<Param>, n: string)
    requires SameNames(a, b)
    ensures Find(a, n) == Find(b, n)
  {
  }

  /** Lookup succeeds exactly when some variable has the name. */
  lemma {:induction false} HasIff(ps: seq<Param>, n: string)
    ensures Has(ps, n) <==> exists k :: 0 <= k < |ps| && ps[k].name == n
  {
    if Has(ps, n) {
      assert ps[Find(ps, n)].name == n;
    }
  }

  /** With unique names, looking up a variable's own name finds that variable. */
  lemma FindUnique(ps: seq<Param>, i: nat)
    requires UniqueNames(ps) && i < |ps|
    ensures Find(ps, ps[i].name) == i
  {
  }

  // ---------------------------------------------------------------------
  // propagateType
  // ---------------------------------------------------------------------

  /** Every context has every variable name of `ps`, so no lookup below returns null. */
  predicate Covers(cs: seq<Context>, ps: seq<Param>)
  {
    forall k, i :: 0 <= k < |cs| && 0 <= i < |ps| ==> Has(cs[k].params, ps[i].name)
  }

  /** Two context lists that differ at most in the fields other than the variable names. */
  predicate SameShape(a: seq<Context>, b: seq<Context>)
  {
    |a| == |b| && forall k :: 0 <= k < |a| ==> SameNames(a[k].params, b[k].params)
  }

  lemma CoversShape(a: seq<Context>, b: seq<Context>, ps: seq<Param>)
    requires SameShape(a, b) && Covers(b, ps)
    ensures Covers(a, ps)
  {
    forall k, i | 0 <= k < |a| && 0 <= i < |ps|
      ensures Has(a[k].params, ps[i].name)
    {
      FindSameNames(a[k].params, b[k].params, ps[i].name);
    }
  }

  /** The type of the variable a lookup of `n` returns in `c` set to `t`. */
  function SetType(c: Context, n: string, t: string): (r: Context)
    requires Has(c.params, n)
    ensures SameNames(r.params, c.params)
  {
    var i := Find(c.params, n);
    c.(params := c.params[i := c.params[i].(paramType := t)])
  }

  /** The reference of propagateType: every context of the list gets `SetType`. */
  function SetTypeAll(cs: seq<Context>, n: string, t: string): (r: seq<Context>)
    requires forall k :: 0 <= k < |cs| ==> Has(cs[k].params, n)
    ensures SameShape(r, cs)
  {
    seq(|cs|, k requires 0 <= k < |cs| => SetType(cs[k], n, t))
  }

  /**
   * What SetTypeAll means variable by variable: in every context the
   * variable a lookup of `n` returns now has type `t`, and every other
   * variable, every header field and every name are as they were.
   */
  lemma SetTypeAllPointwise(cs: seq<Context>, n: string, t: string, k: nat, j: nat)
    requires forall k :: 0 <= k < |cs| ==> Has(cs[k].params, n)
    requires k < |cs| && j < |cs[k].params|
    ensures var r := SetTypeAll(cs, n, t);
      |r| == |cs| && |r[k].params| == |cs[k].params| &&
      r[k].name == cs[k].name && r[k].confirmationNeeded == cs[k].confirmationNeeded &&
      r[k].hide == cs[k].hide &&
      r[k].params[j] == (if j == Find(cs[k].params, n) then cs[k].params[j].(paramType := t) else cs[k].params[j])
  {
  }

  /** Setting a variable's type to the type it already has changes nothing. */
  lemma SetOwnType(c: Context, n: string)
    requires Has(c.params, n)
    ensures SetType(c, n, TypeOf(c, n)) == c
  {
    var i := Find(c.params, n);
    assert c.params[i := c.params[i].(paramType := TypeOf(c, n))] == c.params;
  }

  // ---------------------------------------------------------------------
  // The "check modified type" loop of execute, undo and redo
  // ---------------------------------------------------------------------

  /**
   * One iteration for the saved variable `p`: when the live context's
   * variable of that name has another type than `p`, that type is spread
   * to every context.
   */
  function Step(cs: seq<Context>, cur: nat, p: Param): (r: seq<Context>)
    requires cur < |cs|
    requires forall k :: 0 <= k < |cs| ==> Has(cs[k].params, p.name)
    ensures SameShape(r, cs)
  {
    var t := TypeOf(cs[cur], p.name);
    if t != p.paramType then SetTypeAll(cs, p.name, t) else cs
  }

  /** The whole loop over the saved variables `b`, in their order; `cur` is the live context. */
  function Propagated(cs: seq<Context>, cur: nat, b: seq<Param>): (r: seq<Context>)
    requires cur < |cs| && Covers(cs, b)
    ensures SameShape(r, cs)
    decreases |b|
  {
    if b == [] then cs
    else
      var r0 := Propagated(cs, cur, b[..|b| - 1]);
      CoversShape(r0, cs, b);
      Step(r0, cur, b[|b| - 1])
  }

  /** The variable name `n` is one whose saved type differs from the live context's type. */
  predicate Changed(live: Context, b: seq<Param>, n: string)
  {
    exists i :: 0 <= i < |b| && b[i].name == n && Has(live.params, n) && TypeOf(live, n) != b[i].paramType
  }

  /** One more iteration of the propagation loop. */
  lemma PropagatedSnoc(cs: seq<Context>, cur: nat, b: seq<Param>, i: nat)
    requires cur < |cs| && Covers(cs, b) && i < |b|
    ensures Covers(cs, b[..i]) && Covers(cs, b[..i + 1])
    ensures var r0 := Propagated(cs, cur, b[..i]);
      cur < |r0| && Covers(r0, b) && Propagated(cs, cur, b[..i + 1]) == Step(r0, cur, b[i])
  {
    assert b[..i + 1][..i] == b[..i];
    CoversShape(Propagated(cs, cur, b[..i]), cs, b);
  }

  /** The propagation loop changes no header field and no number of variables. */
  lemma {:induction false} PropagatedHeader(cs: seq<Context>, cur: nat, b: seq<Param>, k: nat)
    requires cur < |cs| && Covers(cs, b) && k < |cs|
    ensures var r := Propagated(cs, cur, b);
      r[k].name == cs[k].name && r[k].confirmationNeeded == cs[k].confirmationNeeded &&
      r[k].hide == cs[k].hide && |r[k].params| == |cs[k].params|
    decreases |b|
  {
    if b != [] {
      var r0 := Propagated(cs, cur, b[..|b| - 1]);
      PropagatedHeader(cs, cur, b[..|b| - 1], k);
    }
  }

  /** Changed for a list with one more saved variable at the end. */
  lemma ChangedSnoc(live: Context, b: seq<Param>, n: string)
    requires b != []
    ensures var p := b[|b| - 1];
      Changed(live, b, n) <==>
        Changed(live, b[..|b| - 1], n) || (p.name == n && Has(live.params, n) && TypeOf(live, n) != p.paramType)
  {
    var b0 := b[..|b| - 1];
    if Changed(live, b, n) {
      var i :| 0 <= i < |b| && b[i].name == n && Has(live.params, n) && TypeOf(live, n) != b[i].paramType;
      if i < |b0| {
        assert b0[i] == b[i];
      }
    }
    if Changed(live, b0, n) {
      var i :| 0 <= i < |b0| && b0[i].name == n && Has(live.params, n) && TypeOf(live, n) != b0[i].paramType;
      assert b[i] == b0[i];
    }
  }

  /** The propagation loop never changes the live context itself. */
  lemma {:induction false} PropagatedKeepsLive(cs: seq<Context>, cur: nat, b: seq<Param>)
    requires cur < |cs| && Covers(cs, b)
    ensures Propagated(cs, cur, b)[cur] == cs[cur]
    decreases |b|
  {
    if b != [] {
      var r0 := Propagated(cs, cur, b[..|b| - 1]);
      PropagatedKeepsLive(cs, cur, b[..|b| - 1]);
      CoversShape(r0, cs, b);
      var p := b[|b| - 1];
      var t := TypeOf(r0[cur], p.name);
      if t != p.paramType {
        SetOwnType(r0[cur], p.name);
      }
    }
  }

  /**
   * What the propagation loop computes, variable by variable: in every
   * context, the variable a lookup of `n` returns takes the live context's
   * type of `n` exactly when `n` is Changed; every other variable, every
   * header field and every name stay as they were.
   */
  lemma {:induction false} PropagatedPointwise(cs: seq<Context>, cur: nat, b: seq<Param>, k: nat, j: nat)
    requires cur < |cs| && Covers(cs, b)
    requires k < |cs| && j < |cs[k].params|
    ensures var r := Propagated(cs, cur, b);
      var n := cs[k].params[j].name;
      |r[k].params| == |cs[k].params| &&
      r[k].name == cs[k].name && r[k].confirmationNeeded == cs[k].confirmationNeeded &&
      r[k].hide == cs[k].hide &&
      r[k].params[j] == (if j == Find(cs[k].params, n) && Changed(cs[cur], b, n)
                         then cs[k].params[j].(paramType := TypeOf(cs[cur], n))
                         else cs[k].params[j])
    decreases |b|
  {
    var n := cs[k].params[j].name;
    if b == [] {
    } else {
      var b0 := b[..|b| - 1];
      var p := b[|b| - 1];
      var r0 := Propagated(cs, cur, b0);
      PropagatedPointwise(cs, cur, b0, k, j);
      PropagatedKeepsLive(cs, cur, b0);
      CoversShape(r0, cs, b);
      FindSameNames(r0[k].params, cs[k].params, p.name);
      assert Has(r0[cur].params, p.name);
      var t := TypeOf(r0[cur], p.name);
      ChangedSnoc(cs[cur], b, n);
      if t != p.paramType {
        SetTypeAllPointwise(r0, p.name, t, k, j);
      }
    }
  }

  // ---------------------------------------------------------------------
  // The parameter copy of undo and redo
  // ---------------------------------------------------------------------

  /** The fields undo copies from a saved variable; the name is kept. */
  function CopyFields(p: Param, from: Param): (r: Param)
    ensures r.name == p.name
    ensures p.name == from.name ==> r == from
  {
    p.(promptNeeded := from.promptNeeded, comment := from.comment, prompt := from.prompt,
       paramType := from.paramType, value := from.value)
  }

  /** One iteration of the outer loop: the first live variable called `s.name` takes `s`'s fields. */
  function CopyOne(ps: seq<Param>, s: Param): (r: seq<Param>)
    ensures SameNames(r, ps)
  {
    var i := Find(ps, s.name);
    if i < |ps| then ps[i := CopyFields(ps[i], s)] else ps
  }

  /** The whole outer loop over the saved variables, in their order. */
  function CopyMatched(ps: seq<Param>, saved: seq<Param>): (r: seq<Param>)
    ensures SameNames(r, ps)
    decreases |saved|
  {
    if saved == [] then ps
    else CopyOne(CopyMatched(ps, saved[..|saved| - 1]), saved[|saved| - 1])
  }

  /** Index of the last saved variable called `n`, or -1 when there is none. */
  function LastFind(saved: seq<Param>, n: string): (r: int)
    ensures -1 <= r < |saved|
    ensures r >= 0 ==> saved[r].name == n
    ensures forall k :: r < k < |saved| ==> saved[k].name != n
    decreases |saved|
  {
    if saved == [] then -1
    else if saved[|saved| - 1].name == n then |saved| - 1
    else LastFind(saved[..|saved| - 1], n)
  }

  /**
   * What the copy loop computes, variable by variable: the first live
   * variable with a given name takes the fields of the LAST saved variable
   * with that name; a live variable that is not the first of its name, or
   * whose name no saved variable has, is left as it was.
   */
  lemma {:induction false} CopyMatchedPointwise(ps: seq<Param>, saved: seq<Param>, j: nat)
    requires j < |ps|
    ensures var n := ps[j].name;
      var l := LastFind(saved, n);
      CopyMatched(ps, saved)[j] == (if j == Find(ps, n) && l >= 0 then CopyFields(ps[j], saved[l]) else ps[j])
    decreases |saved|
  {
    if saved != [] {
      var s0 := saved[..|saved| - 1];
      var s := saved[|saved| - 1];
      var r0 := CopyMatched(ps, s0);
      CopyMatchedPointwise(ps, s0, j);
      FindSameNames(r0, ps, s.name);
      FindSameNames(r0, ps, ps[j].name);
    }
  }

  /** Undo's copy from the saved context onto the live one: header fields, then the variables by name. */
  function Applied(live: Context, saved: Context): (r: Context)
    ensures SameNames(r.params, live.params)
  {
    Context(saved.name, saved.confirmationNeeded, saved.hide, CopyMatched(live.params, saved.params))
  }

  /** With unique names, the last variable with a variable's own name is that variable. */
  lemma LastFindUnique(ps: seq<Param>, i: nat)
    requires UniqueNames(ps) && i < |ps|
    ensures LastFind(ps, ps[i].name) == i
  {
  }

  /**
   * Copying a context back onto a context with the same variable names, all
   * distinct, gives back that context.
   */
  lemma AppliedBack(now: Context, before: Context)
    requires SameNames(now.params, before.params) && UniqueNames(before.params)
    ensures Applied(now, before) == before
  {
    var r := CopyMatched(now.params, before.params);
    forall j | 0 <= j < |now.params|
      ensures r[j] == before.params[j]
    {
      CopyMatchedPointwise(now.params, before.params, j);
      FindSameNames(now.params, before.params, before.params[j].name);
      FindUnique(before.params, j);
      LastFindUnique(before.params, j);
    }
  }

  // ---------------------------------------------------------------------
  // The command as a function of the state it works on
  // ---------------------------------------------------------------------

  /** The manager's contexts and the command's saved context (its oldContext field). */
  datatype State = State(contexts: seq<Context>, saved: Context)

  /** `cur` names a live context of the manager, and every context has all of its variables. */
  predicate Ready(st: State, cur: nat)
  {
    cur < |st.contexts| && Covers(st.contexts, st.contexts[cur].params)
  }

  /** execute: the type check loop over the saved context's variables. */
  function Executed(st: State, cur: nat): (r: State)
    requires cur < |st.contexts| && Covers(st.contexts, st.saved.params)
  {
    st.(contexts := Propagated(st.contexts, cur, st.saved.params))
  }

  /**
   * undo and redo: the live context takes the saved header and variables,
   * its previous value becomes the saved context, and the type check loop
   * runs over that previous value.
   */
  function Swapped(st: State, cur: nat): (r: State)
    requires Ready(st, cur)
  {
    var live := st.contexts[cur];
    var cs1 := st.contexts[cur := Applied(live, st.saved)];
    assert SameShape(cs1, st.contexts) by {
      assert forall k :: 0 <= k < |cs1| && k != cur ==> cs1[k] == st.contexts[k];
    }
    CoversShape(cs1, st.contexts, live.params);
    State(Propagated(cs1, cur, live.params), live)
  }

  /** The live context after undo or redo, with the saved one the previous live context. */
  lemma SwappedLive(st: State, cur: nat)
    requires Ready(st, cur)
    ensures Swapped(st, cur).saved == st.contexts[cur]
    ensures Swapped(st, cur).contexts[cur] == Applied(st.contexts[cur], st.saved)
    ensures Ready(Swapped(st, cur), cur)
  {
    var live := st.contexts[cur];
    var cs1 := st.contexts[cur := Applied(live, st.saved)];
    assert SameShape(cs1, st.contexts) by {
      assert forall k :: 0 <= k < |cs1| && k != cur ==> cs1[k] == st.contexts[k];
    }
    CoversShape(cs1, st.contexts, live.params);
    PropagatedKeepsLive(cs1, cur, live.params);
    var r := Propagated(cs1, cur, live.params);
    CoversShape(r, cs1, live.params);
    assert Covers(r, r[cur].params) by {
      forall k, i | 0 <= k < |r| && 0 <= i < |r[cur].params|
        ensures Has(r[k].params, r[cur].params[i].name)
      {
        assert r[cur].params[i].name == live.params[i].name;
      }
    }
  }

  /**
   * The live context after undo or redo, field by field: the header fields
   * are the saved context's; a variable keeps its name, and is the first of
   * its name to take the fields of the last saved variable of that name, or
   * else stays as it was.
   */
  lemma SwappedLiveFields(st: State, cur: nat, j: nat)
    requires Ready(st, cur) && j < |st.contexts[cur].params|
    ensures var live := st.contexts[cur];
      var r := Swapped(st, cur).contexts[cur];
      var n := live.params[j].name;
      var l := LastFind(st.saved.params, n);
      r.name == st.saved.name && r.confirmationNeeded == st.saved.confirmationNeeded &&
      r.hide == st.saved.hide && |r.params| == |live.params| && r.params[j].name == n &&
      r.params[j] == (if j == Find(live.params, n) && l >= 0 then CopyFields(live.params[j], st.saved.params[l])
                      else live.params[j])
  {
    SwappedLive(st, cur);
    CopyMatchedPointwise(st.contexts[cur].params, st.saved.params, j);
  }

  /** Every context gives each variable of the live context the live context's type. */
  predicate TypesAgree(cs: seq<Context>, cur: nat)
    requires cur < |cs|
  {
    forall k, i :: 0 <= k < |cs| && 0 <= i < |cs[cur].params| && Has(cs[k].params, cs[cur].params[i].name) ==>
      TypeOf(cs[k], cs[cur].params[i].name) == cs[cur].params[i].paramType
  }

  /** Under TypesAgree a lookup of a live variable's name gives the live type in every context. */
  lemma AgreeAt(cs: seq<Context>, cur: nat, k: nat, n: string)
    requires cur < |cs| && TypesAgree(cs, cur)
    requires k < |cs| && Has(cs[cur].params, n) && Has(cs[k].params, n)
    ensures TypeOf(cs[k], n) == TypeOf(cs[cur], n)
  {
    var i := Find(cs[cur].params, n);
    assert cs[cur].params[i].name == n;
  }

  /**
   * With distinct names, a name is Changed from `live` to `live1` exactly
   * when it is Changed back, namely when the two give it different types.
   */
  lemma ChangedSwap(live: Context, live1: Context, n: string)
    requires SameNames(live1.params, live.params) && UniqueNames(live.params)
    ensures Changed(live1, live.params, n) <==> Changed(live, live1.params, n)
    ensures Changed(live1, live.params, n) ==>
      Has(live.params, n) && Has(live1.params, n) && TypeOf(live, n) != TypeOf(live1, n)
  {
    FindSameNames(live1.params, live.params, n);
    if Changed(live1, live.params, n) {
      var i :| 0 <= i < |live.params| && live.params[i].name == n && Has(live1.params, n) && TypeOf(live1, n) != live.params[i].paramType;
      FindUnique(live.params, i);
      assert live1.params[i].name == n;
    }
    if Changed(live, live1.params, n) {
      var i :| 0 <= i < |live1.params| && live1.params[i].name == n && Has(live.params, n) && TypeOf(live, n) != live1.params[i].paramType;
      assert live.params[i].name == n;
      FindUnique(live.params, i);
      assert live.params[i] == live.params[Find(live.params, n)];
    }
  }

  /**
   * undo followed by redo gives back every context of the manager, when the
   * live context's variable names are distinct and all contexts agree on
   * their types; the saved context is then what undo made of the live one.
   */
  lemma UndoRedo(st: State, cur: nat)
    requires Ready(st, cur) && UniqueNames(st.contexts[cur].params) && TypesAgree(st.contexts, cur)
    ensures Ready(Swapped(st, cur), cur) &&
      Swapped(Swapped(st, cur), cur) == State(st.contexts, Swapped(st, cur).contexts[cur])
  {
    SwappedLive(st, cur);
    var st1 := Swapped(st, cur);
    SwappedLive(st1, cur);
    var st2 := Swapped(st1, cur);
    forall k | 0 <= k < |st.contexts|
      ensures st2.contexts[k] == st.contexts[k]
    {
      RoundTripContext(st, cur, k);
    }
  }

  /** UndoRedo for one context of the manager. */
  lemma RoundTripContext(st: State, cur: nat, k: nat)
    requires Ready(st, cur) && UniqueNames(st.contexts[cur].params) && TypesAgree(st.contexts, cur)
    requires k < |st.contexts|
    ensures Ready(Swapped(st, cur), cur) &&
      |Swapped(Swapped(st, cur), cur).contexts| == |st.contexts| &&
      Swapped(Swapped(st, cur), cur).contexts[k] == st.contexts[k]
  {
    SwappedLive(st, cur);
    var cs := st.contexts;
    var live := cs[cur];
    var st1 := Swapped(st, cur);
    SwappedLive(st1, cur);
    AppliedBack(Applied(live, st.saved), live);
    if k != cur {
      RoundTripOther(cs, cur, st.saved, k);
      var live1 := Applied(live, st.saved);
      assert st1.contexts == Propagated(cs[cur := live1], cur, live.params);
      assert Swapped(st1, cur).contexts == Propagated(st1.contexts[cur := live], cur, live1.params);
    }
  }

  /** UndoRedo for a context other than the live one, stated on the context lists. */
  lemma RoundTripOther(cs: seq<Context>, cur: nat, saved: Context, k: nat)
    requires cur < |cs| && Covers(cs, cs[cur].params)
    requires UniqueNames(cs[cur].params) && TypesAgree(cs, cur)
    requires k < |cs| && k != cur
    ensures var live := cs[cur];
      var live1 := Applied(live, saved);
      var cs1 := cs[cur := live1];
      SameShape(cs1, cs) && Covers(cs1, live.params) &&
      var cs2 := Propagated(cs1, cur, live.params);
      var cs3 := cs2[cur := live];
      SameShape(cs3, cs) && Covers(cs3, live1.params) &&
      Propagated(cs3, cur, live1.params)[k] == cs[k]
  {
    var live := cs[cur];
    var live1 := Applied(live, saved);
    var cs1 := cs[cur := live1];
    RoundTripParamShape(cs, cur, saved);
    var cs2 := Propagated(cs1, cur, live.params);
    var cs3 := cs2[cur := live];
    var cs4 := Propagated(cs3, cur, live1.params);
    PropagatedHeader(cs1, cur, live.params, k);
    PropagatedHeader(cs3, cur, live1.params, k);
    forall j | 0 <= j < |cs[k].params|
      ensures cs4[k].params[j] == cs[k].params[j]
    {
      RoundTripParam(cs, cur, saved, k, j);
    }
  }

  /** The intermediate lists of UndoRedo keep the variable names, so every lookup succeeds. */
  lemma RoundTripParamShape(cs: seq<Context>, cur: nat, saved: Context)
    requires cur < |cs| && Covers(cs, cs[cur].params)
    ensures var live := cs[cur];
      var live1 := Applied(live, saved);
      var cs1 := cs[cur := live1];
      SameShape(cs1, cs) && Covers(cs1, live.params) &&
      var cs2 := Propagated(cs1, cur, live.params);
      var cs3 := cs2[cur := live];
      SameShape(cs3, cs) && Covers(cs3, live1.params)
  {
    var live := cs[cur];
    var live1 := Applied(live, saved);
    var cs1 := cs[cur := live1];
    assert SameShape(cs1, cs) by {
      assert forall k :: 0 <= k < |cs1| && k != cur ==> cs1[k] == cs[k];
    }
    CoversShape(cs1, cs, live.params);
    var cs2 := Propagated(cs1, cur, live.params);
    var cs3 := cs2[cur := live];
    assert SameShape(cs3, cs) by {
      forall k | 0 <= k < |cs3|
        ensures SameNames(cs3[k].params, cs[k].params)
      {
        if k != cur {
          assert SameNames(cs2[k].params, cs1[k].params);
        }
      }
    }
    CoversShape(cs3, cs, live1.params);
  }

  /** The single-variable step of UndoRedo for a context other than the live one. */
  lemma RoundTripParam(cs: seq<Context>, cur: nat, saved: Context, k: nat, j: nat)
    requires cur < |cs| && Covers(cs, cs[cur].params)
    requires UniqueNames(cs[cur].params) && TypesAgree(cs, cur)
    requires k < |cs| && k != cur && j < |cs[k].params|
    ensures var live := cs[cur];
      var live1 := Applied(live, saved);
      var cs1 := cs[cur := live1];
      SameShape(cs1, cs) && Covers(cs1, live.params) &&
      var cs2 := Propagated(cs1, cur, live.params);
      var cs3 := cs2[cur := live];
      SameShape(cs3, cs) && Covers(cs3, live1.params) &&
      Propagated(cs3, cur, live1.params)[k].params[j] == cs[k].params[j]
  {
    var live := cs[cur];
    var live1 := Applied(live, saved);
    var cs1 := cs[cur := live1];
    RoundTripParamShape(cs, cur, saved);
    var cs2 := Propagated(cs1, cur, live.params);
    var cs3 := cs2[cur := live];
    var n := cs[k].params[j].name;
    PropagatedPointwise(cs1, cur, live.params, k, j);
    assert cs1[k] == cs[k];
    FindSameNames(cs2[k].params, cs[k].params, n);
    assert cs3[k] == cs2[k];
    assert cs3[k].params[j].name == n;
    PropagatedPointwise(cs3, cur, live1.params, k, j);
    // Both loops change the variable exactly when live and live1 disagree on n.
    ChangedSwap(live, live1, n);
    if j == Find(cs[k].params, n) && Changed(live1, live.params, n) {
      AgreeAt(cs, cur, k, n);
    }
  }

  // ---------------------------------------------------------------------
  // The command over the live context manager
  // ---------------------------------------------------------------------

  /**
   * The copy loop of undo and redo: for each saved variable in order, the
   * inner loop stops at the first live variable of the same name (the
   * `found` flag) and copies the saved fields onto it.
   */
  method CopyParams(live: seq<Param>, saved: seq<Param>) returns (r: seq<Param>)
    ensures r == CopyMatched(live, saved)
  {
    r := live;
    for i := 0 to |saved|
      invariant r == CopyMatched(live, saved[..i])
    {
      assert saved[..i + 1][..i] == saved[..i];
      var oldParam := saved[i];
      ghost var r0 := r;
      var found := false;
      var j := 0;
      while j < |r| && !found
        invariant 0 <= j <= |r| && |r| == |r0|
        invariant !found ==> r == r0 && forall k :: 0 <= k < j ==> r0[k].name != oldParam.name
        invariant found ==> r == CopyOne(r0, oldParam)
        decreases |r| - j
      {
        if r[j].name == oldParam.name {
          found := true;
          r := r[j := CopyFields(r[j], oldParam)];
        }
        j := j + 1;
      }
      assert r == CopyOne(r0, oldParam);
    }
    assert saved[..|saved|] == saved;
  }

  /** The manager of the job's contexts (an IContextManager) with its list of contexts. */
  class ContextManager {
    var contexts: seq<Context>

    constructor (contexts: seq<Context>)
      ensures this.contexts == contexts
    {
      this.contexts := contexts;
    }
  }

  class ContextModifyCommand {
    const manager: ContextManager
    /** Where the live context (currentContext) sits in the manager's list. */
    const current: nat
    /** The saved copy of the context that undo or redo copies back. */
    var oldContext: Context
    /** The snapshot of the live context taken by the last undo or redo; null before. */
    var tmpContext: Option<Context>

    constructor (manager: ContextManager, oldContext: Context, current: nat)
      ensures this.manager == manager && this.current == current
      ensures this.oldContext == oldContext && tmpContext == None
    {
      this.manager := manager;
      this.current := current;
      this.oldContext := oldContext;
      tmpContext := None;
    }

    /**
     * propagateType: in every context of the manager, the variable a lookup
     * of `n` returns gets type `t`. The host passes the live variable itself
     * and reads its name and type on each iteration; neither changes during
     * the loop (the live context's own variable is set to the type it
     * already has), so they are passed here as values.
     */
    method PropagateType(n: string, t: string)
      requires forall k :: 0 <= k < |manager.contexts| ==> Has(manager.contexts[k].params, n)
      modifies manager
      ensures manager.contexts == SetTypeAll(old(manager.contexts), n, t)
    {
      var i := 0;
      while i < |manager.contexts|
        invariant 0 <= i <= |manager.contexts| == |old(manager.contexts)|
        invariant forall k :: 0 <= k < i ==> manager.contexts[k] == SetType(old(manager.contexts)[k], n, t)
        invariant forall k :: i <= k < |manager.contexts| ==> manager.contexts[k] == old(manager.contexts)[k]
      {
        manager.contexts := manager.contexts[i := SetType(manager.contexts[i], n, t)];
        i := i + 1;
      }
    }

    /**
     * The "check modified type" loop: for every variable of `baseline`, the
     * live context's variable of that name is looked up, and its type is
     * propagated when it differs from the baseline's.
     */
    method PropagateChanges(baseline: seq<Param>)
      requires current < |manager.contexts| && Covers(manager.contexts, baseline)
      modifies manager
      ensures manager.contexts == Propagated(old(manager.contexts), current, baseline)
    {
      for i := 0 to |baseline|
        invariant Covers(old(manager.contexts), baseline[..i])
        invariant manager.contexts == Propagated(old(manager.contexts), current, baseline[..i])
      {
        PropagatedSnoc(old(manager.contexts), current, baseline, i);
        var param := baseline[i];
        var live := manager.contexts[current];
        var newParam := live.params[Find(live.params, param.name)];
        if newParam.paramType != param.paramType {
          PropagateType(param.name, newParam.paramType);
        }
      }
      assert baseline[..|baseline|] == baseline;
    }

    /** execute: spread every variable type the edit changed to all contexts. */
    method Execute()
      requires current < |manager.contexts| && Covers(manager.contexts, oldContext.params)
      modifies manager
      ensures manager.contexts == Executed(State(old(manager.contexts), oldContext), current).contexts
    {
      PropagateChanges(oldContext.params);
    }

    /** The body undo and redo share: copy the saved context back and keep the replaced one. */
    method SwapWithSaved()
      requires Ready(State(manager.contexts, oldContext), current)
      modifies this, manager
      ensures State(manager.contexts, oldContext) == Swapped(State(old(manager.contexts), old(oldContext)), current)
      ensures tmpContext == Some(old(manager.contexts)[current])
    {
      var live := manager.contexts[current];
      tmpContext := Some(live);
      var params := CopyParams(live.params, oldContext.params);
      var restored := Context(oldContext.name, oldContext.confirmationNeeded, oldContext.hide, params);
      manager.contexts := manager.contexts[current := restored];
      oldContext := live;
      assert SameShape(manager.contexts, old(manager.contexts)) by {
        assert forall k :: 0 <= k < |manager.contexts| && k != current ==>
          manager.contexts[k] == old(manager.contexts)[k];
      }
      CoversShape(manager.contexts, old(manager.contexts), live.params);
      PropagateChanges(oldContext.params);
    }

    /** undo: the live context takes the saved values back. */
    method Undo()
      requires Ready(State(manager.contexts, oldContext), current)
      modifies this, manager
      ensures State(manager.contexts, oldContext) == Swapped(State(old(manager.contexts), old(oldContext)), current)
      ensures tmpContext == Some(old(manager.contexts)[current])
    {
      SwapWithSaved();
    }

    /** redo: the same swap as undo, which puts the edited values back after an undo. */
    method Redo()
      requires Ready(State(manager.contexts, oldContext), current)
      modifies this, manager
      ensures State(manager.contexts, oldContext) == Swapped(State(old(manager.contexts), old(oldContext)), current)
      ensures tmpContext == Some(old(manager.contexts)[current])
    {
      SwapWithSaved();
    }
  }
}
