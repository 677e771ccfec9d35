/**
 * The decoration of a component on the job canvas: which status badges
 * (breakpoint, error, warning, info, parallel execution, validation rule)
 * are visible for a status word, which badge carries the problem hint and
 * what the hint says, the error-mark flag and the alpha used when painting.
 */
module NodeStatus {
  import opened Common

  /**
   * The single-bit flags of a node's status word; `(status & F) != 0` is
   * `F in status`.
   */
  datatype StatusBit = BreakpointStatus | ErrorStatus | WarningStatus | InfoStatus
                     | BreakpointActiveStatus | ParallelStatus

  /** The tooltip of a badge: none, or the shared status-hint figure. */
  datatype ToolTip = NoToolTip | StatusHint

  /** Visibility of the four status badges. */
  datatype Badges = Badges(breakpoint: bool, error: bool, warning: bool, info: bool)

  /**
   * The badge visibilities `updateStatus` leaves behind, computed as the
   * Java code does: each step reads the visibilities written by the
   * previous ones.
   */
  function BadgesFor(status: set<StatusBit>, showInfoFlag: bool): (b: Badges)
    ensures b.breakpoint <==> BreakpointStatus in status
    ensures b.error <==> ErrorStatus in status
    ensures b.warning <==> WarningStatus in status && !b.error
    ensures b.info <==> InfoStatus in status && !b.error && !b.warning && showInfoFlag
    // at most one of the problem badges is shown
    ensures !(b.error && b.warning) && !(b.error && b.info) && !(b.warning && b.info)
  {
    var breakpoint := BreakpointStatus in status;
    var error := ErrorStatus in status;
    var warning := WarningStatus in status && !error;
    var showInfo := InfoStatus in status && !error && !warning && showInfoFlag;
    // the info branch hides the warning and error badges again
    var error' := if showInfo then false else error;
    var warning' := if showInfo then false else warning;
    Badges(breakpoint, error', warning', showInfo)
  }

  /** One line of the hint for one problem message. */
  function Entry(message: string): string
  {
    "\t- " + message + "<br>"
  }

  /** The lines for a list of problem messages, in list order. */
  function Bullets(messages: seq<string>): (r: string)
    decreases |messages|
  {
    if messages == [] then ""
    else Bullets(messages[..|messages| - 1]) + Entry(messages[|messages| - 1])
  }

  function Header(uniqueName: string): string
  {
    "<b>" + uniqueName + "</b><br><br>"
  }

  /** The heading of the error section: plural only for more than one error. */
  function ErrorLabel(errors: seq<string>): (heading: string)
    ensures heading == "Errors" <==> |errors| > 1
    ensures heading == "Error" <==> |errors| <= 1
  {
    if 1 < |errors| then "Errors" else "Error"
  }

  function WarningSection(warnings: seq<string>): string
  {
    "<i>Warning:</i><br>" + Bullets(warnings)
  }

  function ErrorSection(errors: seq<string>): string
  {
    "<i>" + ErrorLabel(errors) + ":</i><br>" + Bullets(errors)
  }

  /** The warning section of the hint, present iff WARNING_STATUS is set. */
  function WarningPart(status: set<StatusBit>, warnings: seq<string>): string
  {
    if WarningStatus in status then WarningSection(warnings) else ""
  }

  /** The error section of the hint, present iff ERROR_STATUS is set. */
  function ErrorPart(status: set<StatusBit>, errors: seq<string>): string
  {
    if ErrorStatus in status then ErrorSection(errors) else ""
  }

  /** The status hint: the bold unique name, then the warning section, then the error section. */
  function HintText(uniqueName: string, status: set<StatusBit>,
                    warnings: seq<string>, errors: seq<string>): string
  {
    Header(uniqueName) + WarningPart(status, warnings) + ErrorPart(status, errors)
  }

  /** One hint-building loop of `updateStatus`: appends a line per message. */
  method AppendEntries(prefix: string, messages: seq<string>) returns (text: string)
    ensures text == prefix + Bullets(messages)
  {
    text := prefix;
    for i := 0 to |messages|
      invariant text == prefix + Bullets(messages[..i])
    {
      assert messages[..i + 1][..i] == messages[..i];
      text := text + ("\t- " + messages[i] + "<br>");
    }
    assert messages[..|messages|] == messages;
  }

  /** The warning section as `updateStatus` builds it. */
  method BuildWarningPart(status: set<StatusBit>, warnings: seq<string>) returns (part: string)
    ensures part == WarningPart(status, warnings)
  {
    part := "";
    if WarningStatus in status {
      part := AppendEntries("<i>Warning:</i><br>", warnings);
    }
  }

  /** The error section as `updateStatus` builds it. */
  method BuildErrorPart(status: set<StatusBit>, errors: seq<string>) returns (part: string)
    ensures part == ErrorPart(status, errors)
  {
    part := "";
    if ErrorStatus in status {
      var errLabel := if 1 < |errors| then "Errors" else "Error";
      part := AppendEntries("<i>" + errLabel + ":</i><br>", errors);
    }
  }

  /**
   * The hint text `updateStatus` builds; `warnings` and `errors` are the
   * problem messages the problems view lists for the node.
   */
  method BuildHint(uniqueName: string, status: set<StatusBit>,
                   warnings: seq<string>, errors: seq<string>) returns (text: string)
    ensures text == HintText(uniqueName, status, warnings, errors)
  {
    var warningPart := BuildWarningPart(status, warnings);
    var errorPart := BuildErrorPart(status, errors);
    text := "<b>" + uniqueName + "</b><br><br>" + warningPart + errorPart;
  }

  /** Message `i` is listed, whole, right after the lines of the messages before it. */
  lemma {:induction false} BulletAt(messages: seq<string>, i: nat)
    requires i < |messages|
    ensures var off := |Bullets(messages[..i])|;
      off + |Entry(messages[i])| <= |Bullets(messages)| &&
      Bullets(messages)[off .. off + |Entry(messages[i])|] == Entry(messages[i])
  {
    var n := |messages|;
    var init := messages[..n - 1];
    assert Bullets(messages) == Bullets(init) + Entry(messages[n - 1]);
    if i == n - 1 {
      assert messages[..i] == init;
    } else {
      assert init[..i] == messages[..i];
      BulletAt(init, i);
    }
  }

  /** The hint starts with the node's unique name in bold. */
  lemma HintStartsWithName(uniqueName: string, status: set<StatusBit>,
                           warnings: seq<string>, errors: seq<string>)
    ensures var text := HintText(uniqueName, status, warnings, errors);
      |Header(uniqueName)| <= |text| && text[..|Header(uniqueName)|] == "<b>" + uniqueName + "</b><br><br>"
  {
  }

  /** Where the hint lists warning `i`. */
  function WarningOffset(uniqueName: string, warnings: seq<string>, i: nat): nat
    requires i <= |warnings|
  {
    |Header(uniqueName)| + |"<i>Warning:</i><br>"| + |Bullets(warnings[..i])|
  }

  /** Where the hint lists error `j`, after the warning section if there is one. */
  function ErrorOffset(uniqueName: string, status: set<StatusBit>, warnings: seq<string>, errors: seq<string>, j: nat): nat
    requires j <= |errors|
  {
    |Header(uniqueName)| + |WarningPart(status, warnings)| + |"<i>" + ErrorLabel(errors) + ":</i><br>"| + |Bullets(errors[..j])|
  }

  /** A middle part of a three-part string can be read back by slicing. */
  lemma SliceMiddle(pre: string, mid: string, post: string, x: nat, y: nat)
    requires x <= y <= |mid|
    ensures |pre| + y <= |pre + mid + post|
    ensures (pre + mid + post)[|pre| + x .. |pre| + y] == mid[x..y]
  {
    var t := pre + mid + post;
    forall k | 0 <= k < y - x
      ensures t[|pre| + x .. |pre| + y][k] == mid[x..y][k]
    {
      assert t[|pre| + x + k] == mid[x + k];
    }
  }

  /** Regrouping a four-part concatenation. */
  lemma Regroup(a: string, b: string, c: string, d: string)
    ensures a + (b + c) + d == (a + b) + c + d
    ensures a + (b + c) == (a + b) + c + ""
  {
  }

  /** Message `i` of a section appears whole wherever the section is embedded. */
  lemma EntryInText(pre: string, messages: seq<string>, post: string, i: nat)
    requires i < |messages|
    ensures var off := |pre| + |Bullets(messages[..i])|;
      var t := pre + Bullets(messages) + post;
      off + |Entry(messages[i])| <= |pre| + |Bullets(messages)| &&
      off + |Entry(messages[i])| <= |t| && t[off .. off + |Entry(messages[i])|] == Entry(messages[i])
  {
    BulletAt(messages, i);
    var wo := |Bullets(messages[..i])|;
    SliceMiddle(pre, Bullets(messages), post, wo, wo + |Entry(messages[i])|);
  }

  /** Message `i` of a section `lit + Bullets(messages)` appears whole wherever the section is embedded. */
  lemma SectionAt(front: string, lit: string, messages: seq<string>, post: string, i: nat)
    requires i < |messages|
    ensures var off := |front| + |lit| + |Bullets(messages[..i])|;
      var t := front + (lit + Bullets(messages)) + post;
      off + |Entry(messages[i])| <= |front| + |lit| + |Bullets(messages)| &&
      off + |Entry(messages[i])| <= |t| && t[off .. off + |Entry(messages[i])|] == Entry(messages[i])
  {
    Regroup(front, lit, Bullets(messages), post);
    EntryInText(front + lit, messages, post, i);
  }

  /** With WARNING_STATUS set, warning `i` is listed whole at its offset. */
  lemma WarningListed(uniqueName: string, status: set<StatusBit>,
                      warnings: seq<string>, errors: seq<string>, i: nat)
    requires WarningStatus in status && i < |warnings|
    ensures var text := HintText(uniqueName, status, warnings, errors);
      var wi := WarningOffset(uniqueName, warnings, i);
      wi + |Entry(warnings[i])| <= |Header(uniqueName)| + |WarningSection(warnings)| &&
      text[wi .. wi + |Entry(warnings[i])|] == Entry(warnings[i])
  {
    var lit := "<i>Warning:</i><br>";
    assert HintText(uniqueName, status, warnings, errors) ==
      Header(uniqueName) + (lit + Bullets(warnings)) + ErrorPart(status, errors);
    SectionAt(Header(uniqueName), lit, warnings, ErrorPart(status, errors), i);
  }

  /** With ERROR_STATUS set, error `j` is listed whole at its offset, after the warning section if any. */
  lemma ErrorListed(uniqueName: string, status: set<StatusBit>,
                    warnings: seq<string>, errors: seq<string>, j: nat)
    requires ErrorStatus in status && j < |errors|
    ensures var text := HintText(uniqueName, status, warnings, errors);
      var ej := ErrorOffset(uniqueName, status, warnings, errors, j);
      |Header(uniqueName)| + |WarningPart(status, warnings)| <= ej &&
      ej + |Entry(errors[j])| <= |text| &&
      text[ej .. ej + |Entry(errors[j])|] == Entry(errors[j])
  {
    var front := Header(uniqueName) + WarningPart(status, warnings);
    var lit := "<i>" + ErrorLabel(errors) + ":</i><br>";
    var text := front + (lit + Bullets(errors));
    assert HintText(uniqueName, status, warnings, errors) == text;
    assert text + "" == text;
    SectionAt(front, lit, errors, "", j);
  }

  /**
   * With both flags set every warning message and every error message is
   * listed whole, and each warning comes before each error.
   */
  lemma WarningsBeforeErrors(uniqueName: string, status: set<StatusBit>,
                             warnings: seq<string>, errors: seq<string>, i: nat, j: nat)
    requires WarningStatus in status && ErrorStatus in status
    requires i < |warnings| && j < |errors|
    ensures var text := HintText(uniqueName, status, warnings, errors);
      var wi := WarningOffset(uniqueName, warnings, i);
      var ej := ErrorOffset(uniqueName, status, warnings, errors, j);
      wi + |Entry(warnings[i])| <= ej && ej + |Entry(errors[j])| <= |text| &&
      text[wi .. wi + |Entry(warnings[i])|] == Entry(warnings[i]) &&
      text[ej .. ej + |Entry(errors[j])|] == Entry(errors[j])
  {
    WarningListed(uniqueName, status, warnings, errors, i);
    ErrorListed(uniqueName, status, warnings, errors, j);
  }

  /** The parallel badge's label: "x" and the PARALLELIZE_NUMBER value, "0" when the node lacks it. */
  function ParallelLabel(parallelNumber: Option<string>): string
  {
    "x" + (if parallelNumber.Some? then parallelNumber.value else "0")
  }

  class NodeContainerFigure {
    var breakpointVisible: bool
    var errorVisible: bool
    var warningVisible: bool
    var infoVisible: bool
    var errorToolTip: ToolTip
    var warningToolTip: ToolTip
    /** Text of the shared status-hint figure. */
    var statusHintText: string
    /** Whether the breakpoint badge has its line border and the figure its bottom border. */
    var breakpointBorder: bool
    var bottomBorder: bool
    var parallelVisible: bool
    var parallelText: string
    var parallelToolTip: string
    var validationRuleVisible: bool
    /** The error-mark rectangle and image. */
    var rectVisible: bool
    var markVisible: bool
    var alpha: int
    /** Whether the parallel badge exists: it is created in the team edition only. */
    const hasParallelFigure: bool
    const uniqueName: string

    /**
     * The visible state the constructor leaves; `parallelize` is the
     * PARALLELIZE parameter's value when the node has one.
     */
    constructor (name: string, teamEdition: bool, parallelize: Option<bool>)
      ensures uniqueName == name && hasParallelFigure == teamEdition && alpha == -1
      ensures !breakpointVisible && !errorVisible && !warningVisible && !infoVisible
      ensures !rectVisible && !markVisible && !validationRuleVisible
      ensures !breakpointBorder && !bottomBorder
      ensures errorToolTip == NoToolTip && warningToolTip == NoToolTip
      ensures teamEdition ==> parallelText == "x0" && parallelToolTip == "x0" &&
                              parallelVisible == (parallelize.Some? && parallelize.value)
      ensures !teamEdition ==> !parallelVisible
    {
      uniqueName := name;
      hasParallelFigure := teamEdition;
      alpha := -1;
      breakpointVisible, errorVisible, warningVisible, infoVisible := false, false, false, false;
      errorToolTip, warningToolTip := NoToolTip, NoToolTip;
      statusHintText := "";
      breakpointBorder, bottomBorder := false, false;
      validationRuleVisible := false;
      parallelText, parallelToolTip := "x0", "x0";
      parallelVisible := teamEdition && parallelize.Some? && parallelize.value;
      rectVisible, markVisible := false, false;
    }

    /** updateErrorFlag: the error mark rectangle and image follow the flag. */
    method UpdateErrorFlag(flag: bool)
      modifies this`rectVisible, this`markVisible
      ensures rectVisible == flag && markVisible == flag
    {
      rectVisible := flag;
      markVisible := flag;
    }

    method SetAlpha(a: int)
      modifies this`alpha
      ensures alpha == a
    {
      alpha := a;
    }

    /** The alpha `paint` sets on the graphics: the stored one, or opaque when it is unset (-1). */
    method PaintAlpha() returns (used: int)
      ensures alpha != -1 ==> used == alpha
      ensures alpha == -1 ==> used == 255
    {
      if alpha != -1 {
        used := alpha;
      } else {
        used := 255;
      }
    }

    /**
     * updateParallelFigure: without the parallel badge nothing changes;
     * otherwise the badge is shown iff PARALLEL_STATUS is set, labelled "x"
     * and the PARALLELIZE_NUMBER value ("0" when the node lacks it).
     */
    method UpdateParallelFigure(status: set<StatusBit>, parallelNumber: Option<string>)
      modifies this`parallelVisible, this`parallelText, this`parallelToolTip
      ensures !hasParallelFigure ==>
        parallelVisible == old(parallelVisible) && parallelText == old(parallelText) &&
        parallelToolTip == old(parallelToolTip)
      ensures hasParallelFigure ==> (parallelVisible <==> ParallelStatus in status)
      ensures hasParallelFigure && ParallelStatus in status ==>
        parallelText == ParallelLabel(parallelNumber) && parallelToolTip == parallelText
      ensures hasParallelFigure && ParallelStatus !in status ==>
        parallelText == old(parallelText) && parallelToolTip == old(parallelToolTip)
    {
      if !hasParallelFigure {
        return;
      }
      var numberParallel := "0";
      if ParallelStatus in status {
        if parallelNumber.Some? {
          numberParallel := parallelNumber.value;
        }
        var paralString := "x" + numberParallel;
        parallelText := paralString;
        parallelToolTip := paralString;
        parallelVisible := true;
      } else {
        parallelVisible := false;
      }
    }

    /**
     * The private updateValidationRuleFigure: the badge follows the
     * VALIDATION_RULES value when that is a Boolean, else is left as is.
     */
    method UpdateValidationRuleFigure(validationRule: Option<bool>)
      modifies this`validationRuleVisible
      ensures validationRuleVisible == (if validationRule.Some? then validationRule.value else old(validationRuleVisible))
    {
      if validationRule.Some? {
        validationRuleVisible := validationRule.value;
      }
    }

    /** The badge steps of updateStatus: each reads the visibilities the previous ones wrote. */
    method UpdateBadges(status: set<StatusBit>, showInfoFlag: bool)
      modifies this`breakpointVisible, this`errorVisible, this`warningVisible, this`infoVisible,
               this`errorToolTip, this`warningToolTip
      ensures Badges(breakpointVisible, errorVisible, warningVisible, infoVisible) == BadgesFor(status, showInfoFlag)
      ensures !(errorVisible && warningVisible) && !(errorVisible && infoVisible) && !(warningVisible && infoVisible)
      ensures !errorVisible ==> errorToolTip == NoToolTip
      ensures !warningVisible ==> warningToolTip == NoToolTip
    {
      if BreakpointStatus in status {
        breakpointVisible := true;
      } else {
        breakpointVisible := false;
      }

      if ErrorStatus in status {
        warningVisible := false;
        errorVisible := true;
      } else {
        errorVisible := false;
        errorToolTip := NoToolTip;
      }

      if WarningStatus in status && !errorVisible {
        warningVisible := true;
      } else {
        warningVisible := false;
        warningToolTip := NoToolTip;
      }

      if InfoStatus in status && !errorVisible && !warningVisible && showInfoFlag {
        warningVisible := false;
        errorVisible := false;
        infoVisible := true;
      } else {
        infoVisible := false;
      }
    }

    /** The breakpoint-active borders of updateStatus. */
    method UpdateBorders(status: set<StatusBit>)
      modifies this`breakpointBorder, this`bottomBorder
      ensures breakpointBorder == (BreakpointActiveStatus in status)
      ensures bottomBorder == (BreakpointActiveStatus in status)
    {
      if BreakpointActiveStatus in status {
        breakpointBorder := true;
        bottomBorder := true;
      } else {
        breakpointBorder := false;
        bottomBorder := false;
      }
    }

    /** The hint step of updateStatus: when a problem badge shows, build the hint and attach it. */
    method UpdateHint(status: set<StatusBit>, warnings: seq<string>, errors: seq<string>)
      requires !(errorVisible && warningVisible) && !(errorVisible && infoVisible) && !(warningVisible && infoVisible)
      requires !errorVisible ==> errorToolTip == NoToolTip
      requires !warningVisible ==> warningToolTip == NoToolTip
      modifies this`statusHintText, this`errorToolTip, this`warningToolTip
      ensures errorToolTip == (if errorVisible then StatusHint else NoToolTip)
      ensures warningToolTip == (if warningVisible then StatusHint else NoToolTip)
      ensures (errorVisible || warningVisible || infoVisible) ==>
        statusHintText == HintText(uniqueName, status, warnings, errors)
      ensures !(errorVisible || warningVisible || infoVisible) ==> statusHintText == old(statusHintText)
    {
      if errorVisible || warningVisible || infoVisible {
        var text := BuildHint(uniqueName, status, warnings, errors);
        statusHintText := text;
        if errorVisible {
          warningToolTip := NoToolTip;
          errorToolTip := StatusHint;
        } else if infoVisible {
          errorToolTip := NoToolTip;
          warningToolTip := NoToolTip;
        } else {
          errorToolTip := NoToolTip;
          warningToolTip := StatusHint;
        }
      }
    }

    /** The problem part of updateStatus: badges, borders and the hint, in that order. */
    method UpdateProblemFigures(status: set<StatusBit>, showInfoFlag: bool,
                                warnings: seq<string>, errors: seq<string>)
      modifies this`breakpointVisible, this`errorVisible, this`warningVisible, this`infoVisible,
               this`errorToolTip, this`warningToolTip, this`statusHintText,
               this`breakpointBorder, this`bottomBorder
      ensures Badges(breakpointVisible, errorVisible, warningVisible, infoVisible) == BadgesFor(status, showInfoFlag)
      ensures errorToolTip == (if errorVisible then StatusHint else NoToolTip)
      ensures warningToolTip == (if warningVisible then StatusHint else NoToolTip)
      ensures (errorVisible || warningVisible || infoVisible) ==>
        statusHintText == HintText(uniqueName, status, warnings, errors)
      ensures !(errorVisible || warningVisible || infoVisible) ==> statusHintText == old(statusHintText)
      ensures breakpointBorder == (BreakpointActiveStatus in status)
      ensures bottomBorder == (BreakpointActiveStatus in status)
    {
      UpdateBadges(status, showInfoFlag);
      UpdateBorders(status);
      UpdateHint(status, warnings, errors);
    }

    /**
     * updateStatus.  `warnings` and `errors` are the problem messages listed
     * for the node, `parallelNumber` its PARALLELIZE_NUMBER value and
     * `validationRule` its VALIDATION_RULES value when that is a Boolean.
     */
    method UpdateStatus(status: set<StatusBit>, showInfoFlag: bool,
                        warnings: seq<string>, errors: seq<string>,
                        parallelNumber: Option<string>, validationRule: Option<bool>)
      modifies this`breakpointVisible, this`errorVisible, this`warningVisible, this`infoVisible,
               this`errorToolTip, this`warningToolTip, this`statusHintText,
               this`breakpointBorder, this`bottomBorder,
               this`parallelVisible, this`parallelText, this`parallelToolTip,
               this`validationRuleVisible
      ensures Badges(breakpointVisible, errorVisible, warningVisible, infoVisible) == BadgesFor(status, showInfoFlag)
      // the hint goes to exactly the visible one of error and warning, never with info
      ensures errorToolTip == (if errorVisible then StatusHint else NoToolTip)
      ensures warningToolTip == (if warningVisible then StatusHint else NoToolTip)
      ensures (errorVisible || warningVisible || infoVisible) ==>
        statusHintText == HintText(uniqueName, status, warnings, errors)
      ensures !(errorVisible || warningVisible || infoVisible) ==> statusHintText == old(statusHintText)
      ensures breakpointBorder == (BreakpointActiveStatus in status)
      ensures bottomBorder == (BreakpointActiveStatus in status)
      ensures hasParallelFigure ==> (parallelVisible <==> ParallelStatus in status)
      ensures hasParallelFigure && ParallelStatus in status ==>
        parallelText == ParallelLabel(parallelNumber) && parallelToolTip == parallelText
      ensures hasParallelFigure && ParallelStatus !in status ==>
        parallelText == old(parallelText) && parallelToolTip == old(parallelToolTip)
      ensures !hasParallelFigure ==>
        parallelVisible == old(parallelVisible) && parallelText == old(parallelText) &&
        parallelToolTip == old(parallelToolTip)
      ensures validationRuleVisible == (if validationRule.Some? then validationRule.value else old(validationRuleVisible))
    {
      UpdateProblemFigures(status, showInfoFlag, warnings, errors);
      UpdateParallelFigure(status, parallelNumber);
      UpdateValidationRuleFigure(validationRule);
    }
  }
}
