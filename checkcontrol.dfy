/**
 * The property-sheet controller that binds a boolean element parameter to a
 * checkbox: how a parameter value becomes a selection, which command a toggle
 * produces, whether a new checkbox is enabled, and where it is attached in
 * its row.
 */
module CheckControl {
  import opened Common

  /** Names of element parameters; the three the controller tests are distinguished. */
  datatype ParamName = Activate | UseDynamicJob | ProcessTypeProcess | Named(name: string)

  /** The texts the parameter-name enumeration gives the three distinguished names. */
  datatype KnownNames = KnownNames(activate: string, useDynamicJob: string, processTypeProcess: string)

  predicate DistinctNames(k: KnownNames)
  {
    k.activate != k.useDynamicJob && k.activate != k.processTypeProcess &&
    k.useDynamicJob != k.processTypeProcess
  }

  /** A `Named` name is never one of the three distinguished texts. */
  predicate Canonical(p: ParamName, k: KnownNames)
  {
    p.Named? ==> p.name != k.activate && p.name != k.useDynamicJob && p.name != k.processTypeProcess
  }

  /** The parameter's name as a string. */
  function Text(p: ParamName, k: KnownNames): string
  {
    match p
    case Activate => k.activate
    case UseDynamicJob => k.useDynamicJob
    case ProcessTypeProcess => k.processTypeProcess
    case Named(n) => n
  }

  /** How the controller reads a parameter's name: by comparing it with the three known texts. */
  function NameOf(s: string, k: KnownNames): (p: ParamName)
    ensures Canonical(p, k) && Text(p, k) == s
  {
    if s == k.activate then Activate
    else if s == k.useDynamicJob then UseDynamicJob
    else if s == k.processTypeProcess then ProcessTypeProcess
    else Named(s)
  }

  /** Every well-formed name reads back as itself, so testing the constructor is testing the string. */
  lemma NameOfText(p: ParamName, k: KnownNames)
    requires DistinctNames(k) && Canonical(p, k)
    ensures NameOf(Text(p, k), k) == p
    ensures p == Activate <==> Text(p, k) == k.activate
    ensures p == UseDynamicJob <==> Text(p, k) == k.useDynamicJob
  {
  }

  /** The dynamic type of an element parameter's value. */
  datatype Value = NullValue | StringValue(s: string) | BooleanValue(b: bool) | OtherValue

  /** An element parameter as the controller sees it. */
  datatype ElementParameter = ElementParameter(
    name: ParamName,
    value: Value,
    readOnly: bool,
    repositoryValueUsed: bool,
    contextMode: bool,
    tacokit: bool)

  /** The element whose property sheet is shown. */
  datatype Element = NodeElement(nodeId: nat) | ConnectionElement(connId: nat) | FakeElement | OtherElement

  /** The argument of a property-change command. */
  datatype Argument = BoolArg(b: bool) | StringArg(s: string)

  /** The commands a checkbox toggle can produce. */
  datatype Command =
    | ActivateStatus(activate: bool, nodes: seq<nat>, connections: seq<nat>)
    | PropertyChange(target: Element, param: ParamName, arg: Argument)

  /** What a toggle does: a command executed at once (if any), then the returned command (null in Java when None). */
  datatype Toggle = Toggle(executedFirst: Option<Command>, returned: Option<Command>)

  /** The SWT checkbox state kept in the controller's control table. */
  datatype Button = Button(selection: bool, enabled: bool, disposed: bool)

  /** Form-layout attachments of a new control. */
  datatype Attachment = ToControl(offset: int) | ToPercent(percent: int, offset: int) | ToRightEdgeLessHSpace

  datatype FormData = FormData(top: int, left: Option<Attachment>, right: Option<Attachment>)

  /** The runtime error of an integer division by zero. */
  datatype Failure = DivisionByZero | ClassCast

  // ---------------------------------------------------------------------
  // Value conversion used by refresh
  // ---------------------------------------------------------------------

  /** ASCII lower-casing of one character. */
  function LowerChar(c: char): char
  {
    if 'A' <= c <= 'Z' then (c as int - 'A' as int + 'a' as int) as char else c
  }

  /** ASCII lower-casing of a string. */
  function Lower(s: string): (r: string)
    ensures |r| == |s|
    ensures forall i :: 0 <= i < |s| ==> r[i] == LowerChar(s[i])
  {
    if s == [] then [] else [LowerChar(s[0])] + Lower(s[1..])
  }

  /** `a.equalsIgnoreCase(b)`, restricted to ASCII case pairs. */
  predicate EqualsIgnoreCase(a: string, b: string)
  {
    |a| == |b| && forall i :: 0 <= i < |a| ==> LowerChar(a[i]) == LowerChar(b[i])
  }

  /** `Boolean.valueOf(String)`: true exactly for "true" in any letter case. */
  predicate BooleanValueOf(s: string)
  {
    EqualsIgnoreCase(s, "true")
  }

  lemma BooleanValueOfIsLowerTrue(s: string)
    ensures BooleanValueOf(s) <==> Lower(s) == "true"
  {
    if Lower(s) == "true" {
      assert |s| == 4;
      forall i | 0 <= i < 4 ensures LowerChar(s[i]) == LowerChar("true"[i]) {
        assert Lower(s)[i] == LowerChar(s[i]);
      }
    }
    if BooleanValueOf(s) {
      assert Lower(s) == "true" by {
        forall i | 0 <= i < 4 ensures Lower(s)[i] == "true"[i] {
          assert LowerChar(s[i]) == LowerChar("true"[i]);
        }
      }
    }
  }

  /**
   * The selection `refresh` writes for a parameter value: null is unchecked,
   * a string goes through Boolean.valueOf, a Boolean is itself; any other
   * value fails the `(Boolean)` cast.
   */
  function Selection(v: Value): (r: Result)
    ensures r.Ok? <==> !v.OtherValue?
    ensures v.NullValue? ==> r == Ok(false)
    ensures v.BooleanValue? ==> r == Ok(v.b)
    ensures v.StringValue? ==> r == Ok(Lower(v.s) == "true")
  {
    match v
    case NullValue => Ok(false)
    case StringValue(s) => BooleanValueOfIsLowerTrue(s); Ok(BooleanValueOf(s))
    case BooleanValue(b) => Ok(b)
    case OtherValue => Err(ClassCast)
  }

  datatype Result = Ok(selected: bool) | Err(failure: Failure)

  // ---------------------------------------------------------------------
  // createControl: enabled rule and left offset
  // ---------------------------------------------------------------------

  function Abs(x: int): nat
  {
    if x < 0 then -x else x
  }

  /** Java's `int` division, which truncates toward zero. */
  function JavaDiv(a: int, b: int): int
    requires b != 0
  {
    var m := Abs(a) / Abs(b);
    if (a >= 0) == (b > 0) then m else -m
  }

  /**
   * JavaDiv is the division of the Java language: the remainder it leaves is
   * zero or has the dividend's sign, and is smaller than the divisor.
   */
  lemma JavaDivRemainder(a: int, b: int)
    requires b != 0
    ensures var rem := a - JavaDiv(a, b) * b;
      (rem == 0 || (rem > 0) == (a > 0)) && Abs(rem) < Abs(b)
  {
    var n: int, d: int := Abs(a), Abs(b);
    var m := n / d;
    DivMod(n, d);
    var r := n % d;
    var q := JavaDiv(a, b);
    var p := m * d;
    MulSigns(m, d);
    if a >= 0 {
      assert a == n;
      if b > 0 {
        assert q == m && b == d;
      } else {
        assert q == -m && b == -d;
        assert q * b == p;
      }
      assert a - q * b == r;
      assert a == 0 ==> r == 0;
    } else {
      assert a == -n;
      if b > 0 {
        assert q == -m && b == d;
        assert q * b == -p;
      } else {
        assert q == m && b == -d;
        assert q * b == -p;
      }
      assert a - q * b == -r;
    }
  }

  /** Euclidean division of a non-negative dividend by a positive divisor. */
  lemma DivMod(n: int, d: int)
    requires n >= 0 && d > 0
    ensures n - (n / d) * d == n % d && 0 <= n % d < d
    ensures n == 0 ==> n % d == 0
  {
  }

  lemma MulSigns(x: int, y: int)
    ensures (-x) * y == -(x * y) && x * (-y) == -(x * y) && (-x) * (-y) == x * y
  {
  }

  /**
   * The left percentage of a checkbox without a previous control outside a
   * wizard: `((numInRow - 1) * maxPercent) / nbInRow`, which throws when the
   * row count is zero.
   */
  function LeftPercent(numInRow: int, nbInRow: int, maxPercent: int): (r: Option<int>)
    ensures r.None? <==> nbInRow == 0
  {
    if nbInRow == 0 then None else Some(JavaDiv((numInRow - 1) * maxPercent, nbInRow))
  }

  lemma MulBound(a: int, b: int, c: int)
    requires 0 <= a < b && c > 0
    ensures 0 <= a * c < b * c
  {
  }

  /** For a control inside its row the offset lies in [0, maxPercent) and is the floor of the exact fraction. */
  lemma LeftPercentInRow(numInRow: int, nbInRow: int, maxPercent: int)
    requires 1 <= numInRow <= nbInRow && maxPercent > 0
    ensures LeftPercent(numInRow, nbInRow, maxPercent).Some?
    ensures var p := LeftPercent(numInRow, nbInRow, maxPercent).value;
      0 <= p < maxPercent &&
      p * nbInRow <= (numInRow - 1) * maxPercent < (p + 1) * nbInRow
  {
    var a := (numInRow - 1) * maxPercent;
    MulBound(numInRow - 1, nbInRow, maxPercent);
    assert 0 <= a < nbInRow * maxPercent;
    var p := a / nbInRow;
    assert JavaDiv(a, nbInRow) == p;
    assert p * nbInRow <= a < (p + 1) * nbInRow;
    MulCancel(p, maxPercent, nbInRow);
  }

  lemma MulCancel(p: int, m: int, n: int)
    requires n > 0 && p * n < m * n
    ensures p < m
  {
  }

  /** A new checkbox is enabled iff it is writable and its value is not taken from the repository (a fake element always may be). */
  predicate EnabledOnCreate(param: ElementParameter, elem: Element)
  {
    !param.readOnly && (elem.FakeElement? || !param.repositoryValueUsed)
  }

  // ---------------------------------------------------------------------
  // createCommand
  // ---------------------------------------------------------------------

  /**
   * The commands a checkbox toggle produces.  `processValue` is the string
   * form of the node's PROCESS_TYPE_PROCESS parameter when it has one, and
   * `isMapReduceJob` answers the repository lookup of a process id.
   */
  function CreateCommand(param: ParamName, selected: bool, elem: Element,
                         processValue: Option<string>, isMapReduceJob: string -> bool): (t: Toggle)
    // the process parameter is cleared only when a dynamic job is switched on for a node selecting an M/R job
    ensures t.executedFirst.Some? <==>
      (selected && param == UseDynamicJob && elem.NodeElement? && processValue.Some? &&
       processValue.value != "" && isMapReduceJob(processValue.value))
    ensures t.executedFirst.Some? ==> t.executedFirst.value == PropertyChange(elem, ProcessTypeProcess, StringArg(""))
    // ACTIVATE toggles the activation of exactly the node or the connection
    ensures param == Activate && elem.NodeElement? ==>
      t.returned == Some(ActivateStatus(selected, [elem.nodeId], []))
    ensures param == Activate && elem.ConnectionElement? ==>
      t.returned == Some(ActivateStatus(selected, [], [elem.connId]))
    ensures t.returned.None? <==> (param == Activate && !elem.NodeElement? && !elem.ConnectionElement?)
    // every other parameter gets a property change carrying the new Boolean
    ensures param != Activate ==> t.returned == Some(PropertyChange(elem, param, BoolArg(selected)))
  {
    var first :=
      if selected && param == UseDynamicJob && elem.NodeElement? && processValue.Some?
         && processValue.value != "" && isMapReduceJob(processValue.value)
      then Some(PropertyChange(elem, ProcessTypeProcess, StringArg("")))
      else None;
    var returned :=
      if param == Activate then
        match elem
        case NodeElement(n) => Some(ActivateStatus(selected, [n], []))
        case ConnectionElement(c) => Some(ActivateStatus(selected, [], [c]))
        case _ => None
      else Some(PropertyChange(elem, param, BoolArg(selected)));
    Toggle(first, returned)
  }

  // ---------------------------------------------------------------------
  // The controller's control table
  // ---------------------------------------------------------------------

  class CheckController {
    /** hashCurControls restricted to the checkboxes this controller created. */
    var controls: map<ParamName, Button>
    /** The element whose parameters are shown. */
    const elem: Element

    constructor (e: Element)
      ensures elem == e && controls == map[]
    {
      elem := e;
      controls := map[];
    }

    /**
     * createControl, reduced to the enabled rule, the form data and the
     * registration of the new checkbox; `hasLastControl` says whether a
     * previous control exists in the row.
     */
    method CreateControl(param: ElementParameter, numInRow: int, nbInRow: int, top: int,
                         hasLastControl: bool, inWizard: bool, maxPercent: int)
      returns (r: Outcome<Failure>, data: FormData)
      modifies this
      ensures r.Fail? <==> (!inWizard && !hasLastControl && nbInRow == 0)
      ensures r.Pass? ==> controls == old(controls)[param.name := Button(false, EnabledOnCreate(param, elem), false)]
      ensures r.Fail? ==> controls == old(controls)
      ensures r.Pass? ==> data.top == top
      ensures r.Pass? && inWizard ==>
        data.left.None? && data.right == Some(if hasLastControl then ToControl(0) else ToRightEdgeLessHSpace)
      ensures r.Pass? && !inWizard && hasLastControl ==> data == FormData(top, Some(ToControl(0)), None)
      ensures r.Pass? && !inWizard && !hasLastControl ==>
        data == FormData(top, Some(ToPercent(LeftPercent(numInRow, nbInRow, maxPercent).value, 0)), None)
    {
      data := FormData(top, None, None);
      if inWizard {
        data := data.(right := Some(if hasLastControl then ToControl(0) else ToRightEdgeLessHSpace));
      } else if hasLastControl {
        data := data.(left := Some(ToControl(0)));
      } else {
        var p := LeftPercent(numInRow, nbInRow, maxPercent);
        if p.None? {
          return Fail(DivisionByZero), data;
        }
        data := data.(left := Some(ToPercent(p.value, 0)));
      }
      controls := controls[param.name := Button(false, EnabledOnCreate(param, elem), false)];
      r := Pass;
    }

    /**
     * refresh: writes the selection for the parameter's value into its
     * checkbox; a missing or disposed checkbox is left alone and gives None.  In context
     * mode or for a tacokit parameter the enabled state is recomputed
     * (`widgetEnabled` is the inherited isWidgetEnabled answer).
     */
    method Refresh(param: ElementParameter, widgetEnabled: bool) returns (r: Option<Result>)
      modifies this
      ensures r.None? <==> param.name !in old(controls) || old(controls)[param.name].disposed
      ensures r.None? ==> controls == old(controls)
      ensures r.Some? ==>
        r.value == Selection(param.value) &&
        (r.value.Err? ==> controls == old(controls)) &&
        (r.value.Ok? ==> controls == old(controls)[param.name := Button(
           r.value.selected,
           if param.tacokit || param.contextMode then widgetEnabled else old(controls)[param.name].enabled,
           false)])
    {
      if param.name !in controls || controls[param.name].disposed {
        return None;
      }
      var sel := Selection(param.value);
      r := Some(sel);
      if sel.Err? {
        return;
      }
      var button := controls[param.name].(selection := sel.selected);
      if param.tacokit || param.contextMode {
        button := button.(enabled := widgetEnabled);
      }
      controls := controls[param.name := button];
    }
  }
}
