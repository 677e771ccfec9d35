# Talend job designer: reconnect, context edit, node and subjob decoration, checkbox controller

This project models five pieces of sequential logic from the graphical job designer of Talend Open Studio (`org.talend.designer.core`). It then proves properties of them in Dafny. Each Java file has its own Dafny module. The GEF and SWT host objects (nodes, connectors, contexts, figures, buttons) are reduced to plain records.

- `reconnect.dfy`, module `ConnectionReconnect`: the command that moves one end of a job connection to another component, and its undo.
  - It keeps the per-connector link counters of both ends.
  - It moves metadata tables between the old and new source when a connector is multi-schema.
  - It propagates the schema to the target and records each metadata change so that undo can revert it.
  - The host state is a `JobProcess` class whose fields are maps from component to value. The spec functions `Executed` and `Undone` work on a `World` value holding the same maps. The methods are proved to leave `Current() == Executed(old(Current()), …)` and `Current() == Undone(old(Current()), …)`.
- `contextmodify.dfy`, module `ContextModify`: the command recorded when a job context is edited.
  - `execute` spreads every changed variable type to all contexts of the context manager.
  - `undo` and `redo` share one body. It copies the saved context's header fields and its name-matched variable fields onto the live context, keeps a snapshot of the live context as the new saved context, and spreads the types that changed.
- `nodestatus.dfy`, module `NodeStatus`: the decoration of a component on the canvas.
  - Which badges show for a status word (breakpoint, error, warning, info, parallel execution, validation rule).
  - Which badge carries the problem hint, and the HTML text of that hint.
  - The breakpoint borders, the error mark, and the alpha used for painting.
- `checkcontrol.dfy`, module `CheckControl`: the property-sheet controller of boolean parameters.
  - How a parameter value becomes a checkbox selection.
  - Which command a toggle produces.
  - Whether a new checkbox is enabled, and where it is attached in its row.
- `subjobfigure.dfy`, module `SubjobFigure`: the figure that draws a subjob.
  - The title prefix of pre- and post-jobs.
  - Default colours for missing or forbidden colour properties, written back to the subjob.
  - The stacking order of the title-bar and body rectangles.
  - The joblet border.
- `common.dfy`, module `Common`: the `Option` and `Outcome` datatypes.

Modelling conventions:

- A status word `(status & F) != 0` is written `F in status`, over a set of flags.
- A Java `null` is `None`.
- Some runtime exceptions the code can raise are error values: `IllegalStateException` in reconnect, `ArithmeticException` in the checkbox layout, `ClassCastException` in refresh. The others are excluded in one of two ways, each listed under "Left out". Null dereferences and out-of-range list removals are excluded by preconditions. Casts and unboxings of host values are excluded by giving those inputs their types.
- Host services whose code is not part of this model are parameters:
  - the connection checks of `ConnectionManager`;
  - the propagate dialog's answer;
  - the M/R job lookup;
  - the test-container service;
  - the colour preferences, parser and formatter.

## Model

Source paths are relative to the root of the original repository; all five files live under `main/plugins/org.talend.designer.core/src/main/java/org/talend/designer/core/ui/editor/`.

| member | source | states |
|---|---|---|
| ConnectionReconnect.LastMatchIndexIsLast | main/plugins/org.talend.designer.core/src/main/java/org/talend/designer/core/ui/editor/cmd/ConnectionReconnectCommand.java:224-231 | The index the search loop leaves is the last one whose table name matches. When no table matches it is 0, so it is in range for every non-empty list. |
| ConnectionReconnect.FindLastMatch | main/plugins/org.talend.designer.core/src/main/java/org/talend/designer/core/ui/editor/cmd/ConnectionReconnectCommand.java:242-248 | The `for` loop that keeps overwriting `num` returns that last matching index (0 when none matches). |
| ConnectionReconnect.RemoveAppended | main/plugins/org.talend.designer.core/src/main/java/org/talend/designer/core/ui/editor/cmd/ConnectionReconnectCommand.java:404-414 | After a table is appended, a search for its name finds the appended copy, and removing it gives the list back, as undo's mirror move does. |
| ConnectionReconnect.BumpsRoundTrip | main/plugins/org.talend.designer.core/src/main/java/org/talend/designer/core/ui/editor/cmd/ConnectionReconnectCommand.java:377-380 | Execute's -1/+1 on the old and new connector, followed by undo's +1/-1, restores all counters, aliasing included. |
| ConnectionReconnect.RestoredOne | main/plugins/org.talend.designer.core/src/main/java/org/talend/designer/core/ui/editor/cmd/ConnectionReconnectCommand.java:417-419 | Undoing a recorded change that replaced one component's table restores the whole table map. |
| ConnectionReconnect.ConnectionReconnectCommand.constructor | main/plugins/org.talend.designer.core/src/main/java/org/talend/designer/core/ui/editor/cmd/ConnectionReconnectCommand.java:81-94 | Records the old ends, connector name and line style. The saved table is the connection's DATA table, or none for other connection types. Keeps the old source's schema type, with no new end and an empty change log. |
| ConnectionReconnect.ConnectionReconnectCommand.SetNewSource | main/plugins/org.talend.designer.core/src/main/java/org/talend/designer/core/ui/editor/cmd/ConnectionReconnectCommand.java:101-105 | Sets the new source and clears the pending target, so only one direction is pending. |
| ConnectionReconnect.ConnectionReconnectCommand.SetNewTarget | main/plugins/org.talend.designer.core/src/main/java/org/talend/designer/core/ui/editor/cmd/ConnectionReconnectCommand.java:112-116 | Sets the new target and clears the pending source. |
| ConnectionReconnect.ConnectionReconnectCommand.CanExecute | main/plugins/org.talend.designer.core/src/main/java/org/talend/designer/core/ui/editor/cmd/ConnectionReconnectCommand.java:118-155 | True iff all of these hold: the connection is active, neither old end is in a joblet, the test container does not block, a new end is set, and the connection check on the connection with ACTIVATE false succeeds. The connection, ACTIVATE included, is left as on entry. The new line style is taken only on success. |
| ConnectionReconnect.ConnectionReconnectCommand.MoveTablesOnExecute | main/plugins/org.talend.designer.core/src/main/java/org/talend/designer/core/ui/editor/cmd/ConnectionReconnectCommand.java:215-252 | The state after execute's FLOW branch is the spec function `SourceMoved` of the state before (schema type read, tables moved, meta name set). |
| ConnectionReconnect.ConnectionReconnectCommand.ExecuteSource | main/plugins/org.talend.designer.core/src/main/java/org/talend/designer/core/ui/editor/cmd/ConnectionReconnectCommand.java:210-301 | The state after execute's source branch is `SourceExecuted` of the state before. At most one metadata change is recorded. |
| ConnectionReconnect.ConnectionReconnectCommand.PropagateToOldTarget | main/plugins/org.talend.designer.core/src/main/java/org/talend/designer/core/ui/editor/cmd/ConnectionReconnectCommand.java:277-299 | The auto-propagation to the old target is `SourcePropagated`, recording at most one change. |
| ConnectionReconnect.ConnectionReconnectCommand.ExecuteTarget | main/plugins/org.talend.designer.core/src/main/java/org/talend/designer/core/ui/editor/cmd/ConnectionReconnectCommand.java:302-353 | The state after execute's target branch is `TargetExecuted` of the state before, recording at most one change. |
| ConnectionReconnect.ConnectionReconnectCommand.PropagateToNewTarget | main/plugins/org.talend.designer.core/src/main/java/org/talend/designer/core/ui/editor/cmd/ConnectionReconnectCommand.java:324-353 | The propagation to the new target, and its switch to BUILT_IN, is `TargetPropagated`. |
| ConnectionReconnect.ConnectionReconnectCommand.Execute | main/plugins/org.talend.designer.core/src/main/java/org/talend/designer/core/ui/editor/cmd/ConnectionReconnectCommand.java:207-372 | Fails with IllegalState iff neither a new source nor a new target is set. The new state is `Executed` of the old one. The change log is cleared first and then holds at most one change. This holds under the `SourceReady` and `TargetReady` preconditions (see Left out). |
| ConnectionReconnect.ConnectionReconnectCommand.UndoMetadataChanges | main/plugins/org.talend.designer.core/src/main/java/org/talend/designer/core/ui/editor/cmd/ConnectionReconnectCommand.java:416-419 | The loop undoing each recorded change leaves the tables as `Restored` says. |
| ConnectionReconnect.ConnectionReconnectCommand.MoveTablesOnUndo | main/plugins/org.talend.designer.core/src/main/java/org/talend/designer/core/ui/editor/cmd/ConnectionReconnectCommand.java:381-415 | Undo's mirror moves of the tables are `TablesMovedBack`, including the two last-match search loops. |
| ConnectionReconnect.ConnectionReconnectCommand.RestoreSourceSchema | main/plugins/org.talend.designer.core/src/main/java/org/talend/designer/core/ui/editor/cmd/ConnectionReconnectCommand.java:416-424 | If execute read a schema type for the new source, the recorded changes are undone in order and that type is put back. If the old source had a schema type, it is put back as well. |
| ConnectionReconnect.ConnectionReconnectCommand.UndoSource | main/plugins/org.talend.designer.core/src/main/java/org/talend/designer/core/ui/editor/cmd/ConnectionReconnectCommand.java:376-427 | Undo's source branch plus the final reconnect is `SourceUndone`. |
| ConnectionReconnect.ConnectionReconnectCommand.UndoTarget | main/plugins/org.talend.designer.core/src/main/java/org/talend/designer/core/ui/editor/cmd/ConnectionReconnectCommand.java:428-438 | Undo's target branch plus the final reconnect is `TargetUndone`. |
| ConnectionReconnect.ConnectionReconnectCommand.Undo | main/plugins/org.talend.designer.core/src/main/java/org/talend/designer/core/ui/editor/cmd/ConnectionReconnectCommand.java:374-441 | The new state is `Undone` of the old one. The connection goes back to (old source, old target, old line style). This holds under the `SourceUndoReady` and `TargetUndoReady` preconditions (see Left out). |
| ConnectionReconnect.ConnectionReconnectCommand.TargetExecuteCounts | main/plugins/org.talend.designer.core/src/main/java/org/talend/designer/core/ui/editor/cmd/ConnectionReconnectCommand.java:305-309 | A target reconnect takes one input off the old target's counter for the old style and adds one to the new target's counter for the new style. Both hit the same counter when the ends and styles coincide. Output counters, metadata lists and the source stay as they were. |
| ConnectionReconnect.ConnectionReconnectCommand.TargetPropagation | main/plugins/org.talend.designer.core/src/main/java/org/talend/designer/core/ui/editor/cmd/ConnectionReconnectCommand.java:324-352 | A REPOSITORY target never gets a propagation. A change is recorded iff the full condition of TDI-28557 holds: DATA and not FLOW_REF, both tables present, tables differ, auto-propagated, not REPOSITORY, target empty or the user agrees. Then the target's table becomes the saved one and its type BUILT_IN; otherwise tables and types do not change. |
| ConnectionReconnect.ConnectionReconnectCommand.TargetRoundTrip | main/plugins/org.talend.designer.core/src/main/java/org/talend/designer/core/ui/editor/cmd/ConnectionReconnectCommand.java:428-440 | Execute followed by undo of a target reconnect restores every counter, table, schema type and the connection. |
| ConnectionReconnect.ConnectionReconnectCommand.TargetExecutedShape | main/plugins/org.talend.designer.core/src/main/java/org/talend/designer/core/ui/editor/cmd/ConnectionReconnectCommand.java:302-310 | A target reconnect changes only the input counters, the connection ends and style, the saved target type, and the propagation fields. |
| ConnectionReconnect.ConnectionReconnectCommand.TargetUndoneShape | main/plugins/org.talend.designer.core/src/main/java/org/talend/designer/core/ui/editor/cmd/ConnectionReconnectCommand.java:428-440 | Undo of a target reconnect reverses the two input counters and reconnects the old ends. When a target type was saved, it undoes the recorded changes and puts that type back. Nothing else changes. |
| ConnectionReconnect.ConnectionReconnectCommand.SourceExecuteCounts | main/plugins/org.talend.designer.core/src/main/java/org/talend/designer/core/ui/editor/cmd/ConnectionReconnectCommand.java:211-263 | A source reconnect takes one output off the old source's connector and adds one to the new source's, other components untouched. The target stays. For a FLOW connection the meta name is kept when both ends are multi-schema and becomes the connection's unique name when only the new source is. In every other case it becomes the new source's unique name. |
| ConnectionReconnect.ConnectionReconnectCommand.SourceExecutedShape | main/plugins/org.talend.designer.core/src/main/java/org/talend/designer/core/ui/editor/cmd/ConnectionReconnectCommand.java:210-263 | A source reconnect changes only the output counters, the metadata lists (FLOW only), the saved schema type, the propagation fields and the connection. |
| ConnectionReconnect.ConnectionReconnectCommand.SourcePropagation | main/plugins/org.talend.designer.core/src/main/java/org/talend/designer/core/ui/editor/cmd/ConnectionReconnectCommand.java:277-299 | A change is recorded iff these all hold: a schema type was read, the style is DATA, both tables are present and differ, the old target auto-propagates, and the saved table is empty or the user agrees. Then the old target's table becomes the new source's and the old one is logged. |
| ConnectionReconnect.ConnectionReconnectCommand.MultiSchemaMove | main/plugins/org.talend.designer.core/src/main/java/org/talend/designer/core/ui/editor/cmd/ConnectionReconnectCommand.java:222-251 | A multi-schema old source loses the table at the last matching index. A multi-schema new source gains the saved table, renamed to the connection's unique name when the old source is not multi-schema. Other lists are unchanged. |
| ConnectionReconnect.ConnectionReconnectCommand.SourceMovedLists | main/plugins/org.talend.designer.core/src/main/java/org/talend/designer/core/ui/editor/cmd/ConnectionReconnectCommand.java:215-252 | The moves keep the set of components with a metadata list. A multi-schema new source's list is non-empty afterwards, so undo's `remove(num)` is in range. |
| ConnectionReconnect.ConnectionReconnectCommand.TablesRoundTrip | main/plugins/org.talend.designer.core/src/main/java/org/talend/designer/core/ui/editor/cmd/ConnectionReconnectCommand.java:381-415 | Undo's moves after execute's give `ListsAfterRoundTrip`. The meta name is kept when both ends are multi-schema, the table's name when only the old one is, and else the old source's unique name. |
| ConnectionReconnect.ConnectionReconnectCommand.SourceRoundTrip | main/plugins/org.talend.designer.core/src/main/java/org/talend/designer/core/ui/editor/cmd/ConnectionReconnectCommand.java:374-441 | Execute followed by undo of a source reconnect restores components, both counter maps, schema tables, schema types, and the connection apart from its meta name. Each metadata list comes back as `ListsAfterRoundTrip` says, and the meta name is the one undo writes. |
| ContextModify.Find | main/plugins/org.talend.designer.core/src/main/java/org/talend/designer/core/ui/editor/cmd/ContextModifyCommand.java:97 | The lookup of a variable by name returns the first variable with that name, or none. |
| ContextModify.HasIff | main/plugins/org.talend.designer.core/src/main/java/org/talend/designer/core/ui/editor/cmd/ContextModifyCommand.java:97 | A lookup succeeds iff some variable has that name. |
| ContextModify.FindUnique | main/plugins/org.talend.designer.core/src/main/java/org/talend/designer/core/ui/editor/cmd/ContextModifyCommand.java:136 | With unique names, looking up the i-th variable's name returns index i. |
| ContextModify.SetTypeAllPointwise | main/plugins/org.talend.designer.core/src/main/java/org/talend/designer/core/ui/editor/cmd/ContextModifyCommand.java:95-100 | In every context exactly the first variable with that name gets the new type. All other variables, and the name, confirmation and hide fields, are unchanged. |
| ContextModify.SetOwnType | main/plugins/org.talend.designer.core/src/main/java/org/talend/designer/core/ui/editor/cmd/ContextModifyCommand.java:98 | Setting a variable to the type it already has changes nothing, which is why the live context is unaffected by its own propagation. |
| ContextModify.PropagatedHeader | main/plugins/org.talend.designer.core/src/main/java/org/talend/designer/core/ui/editor/cmd/ContextModifyCommand.java:78-84 | The propagation never changes a context's name, confirmation and hide fields, or its number of variables. |
| ContextModify.ChangedSnoc | main/plugins/org.talend.designer.core/src/main/java/org/talend/designer/core/ui/editor/cmd/ContextModifyCommand.java:81 | A name counts as changed for the longer list iff it did for the prefix or the last saved variable shows a different type. |
| ContextModify.PropagatedKeepsLive | main/plugins/org.talend.designer.core/src/main/java/org/talend/designer/core/ui/editor/cmd/ContextModifyCommand.java:78-84 | The live context itself comes out of the propagation unchanged. |
| ContextModify.PropagatedPointwise | main/plugins/org.talend.designer.core/src/main/java/org/talend/designer/core/ui/editor/cmd/ContextModifyCommand.java:78-84 | In every context, the first variable called n takes the live context's type for n iff some saved variable of that name had another type. Every other variable and field is unchanged. |
| ContextModify.CopyFields | main/plugins/org.talend.designer.core/src/main/java/org/talend/designer/core/ui/editor/cmd/ContextModifyCommand.java:168-172 | The copy keeps the live variable's name. For equal names the result equals the saved variable: prompt-needed, comment, prompt, type and value all come from it. |
| ContextModify.CopyMatchedPointwise | main/plugins/org.talend.designer.core/src/main/java/org/talend/designer/core/ui/editor/cmd/ContextModifyCommand.java:160-175 | Only the first live variable of each name is written (the `found` flag). It takes the fields of the last saved variable of that name. Live variables with no saved match are unchanged. |
| ContextModify.AppliedBack | main/plugins/org.talend.designer.core/src/main/java/org/talend/designer/core/ui/editor/cmd/ContextModifyCommand.java:149-175 | Copying a context with unique names onto one with the same names gives back that context. |
| ContextModify.SwappedLive | main/plugins/org.talend.designer.core/src/main/java/org/talend/designer/core/ui/editor/cmd/ContextModifyCommand.java:147-183 | After undo the saved context is the snapshot of the live context taken first, and the live context is the copy of the saved one onto it. The state stays ready for the next undo or redo. |
| ContextModify.SwappedLiveFields | main/plugins/org.talend.designer.core/src/main/java/org/talend/designer/core/ui/editor/cmd/ContextModifyCommand.java:149-175 | After undo the live context has the saved name, confirmation and hide fields, and each variable is as CopyMatchedPointwise says. |
| ContextModify.ChangedSwap | main/plugins/org.talend.designer.core/src/main/java/org/talend/designer/core/ui/editor/cmd/ContextModifyCommand.java:177-182 | A type differs between the live context and its copy in one direction iff it does in the other. |
| ContextModify.UndoRedo | main/plugins/org.talend.designer.core/src/main/java/org/talend/designer/core/ui/editor/cmd/ContextModifyCommand.java:103-183 | When the live names are unique and every context agrees with the live types, undo followed by redo restores every context of the manager. The saved context is then the one undo produced. |
| ContextModify.CopyParams | main/plugins/org.talend.designer.core/src/main/java/org/talend/designer/core/ui/editor/cmd/ContextModifyCommand.java:160-175 | The nested loops with the `found` flag compute CopyMatched, whose meaning variable by variable is CopyMatchedPointwise. |
| ContextModify.ContextModifyCommand.constructor | main/plugins/org.talend.designer.core/src/main/java/org/talend/designer/core/ui/editor/cmd/ContextModifyCommand.java:56-62 | Keeps the manager, the live context and the saved context; no snapshot yet. |
| ContextModify.ContextModifyCommand.PropagateType | main/plugins/org.talend.designer.core/src/main/java/org/talend/designer/core/ui/editor/cmd/ContextModifyCommand.java:95-100 | The loop over the manager's contexts leaves `SetTypeAll`: by SetTypeAllPointwise, exactly the first variable of that name in each context has the new type. |
| ContextModify.ContextModifyCommand.PropagateChanges | main/plugins/org.talend.designer.core/src/main/java/org/talend/designer/core/ui/editor/cmd/ContextModifyCommand.java:134-140 | The type-check loop leaves `Propagated` of the contexts before, whose meaning variable by variable is PropagatedPointwise. |
| ContextModify.ContextModifyCommand.Execute | main/plugins/org.talend.designer.core/src/main/java/org/talend/designer/core/ui/editor/cmd/ContextModifyCommand.java:76-93 | The contexts become `Executed`: a type is propagated only where the edited context's type differs from the saved one. |
| ContextModify.ContextModifyCommand.SwapWithSaved | main/plugins/org.talend.designer.core/src/main/java/org/talend/designer/core/ui/editor/cmd/ContextModifyCommand.java:147-183 | The contexts and saved context become `Swapped` of the ones before, and the snapshot is the live context before. |
| ContextModify.ContextModifyCommand.Undo | main/plugins/org.talend.designer.core/src/main/java/org/talend/designer/core/ui/editor/cmd/ContextModifyCommand.java:147-187 | undo is the swap. |
| ContextModify.ContextModifyCommand.Redo | main/plugins/org.talend.designer.core/src/main/java/org/talend/designer/core/ui/editor/cmd/ContextModifyCommand.java:103-144 | redo is the same swap, so UndoRedo applies to undo followed by redo. |
| NodeStatus.BadgesFor | main/plugins/org.talend.designer.core/src/main/java/org/talend/designer/core/ui/editor/nodecontainer/NodeContainerFigure.java:233-260 | Breakpoint iff BREAKPOINT. Error iff ERROR. Warning iff WARNING and no error. Info iff INFO, no error, no warning and the info flag. At most one of error, warning and info shows. |
| NodeStatus.ErrorLabel | main/plugins/org.talend.designer.core/src/main/java/org/talend/designer/core/ui/editor/nodecontainer/NodeContainerFigure.java:284-289 | The error heading is "Errors" iff there is more than one error, else "Error". |
| NodeStatus.AppendEntries | main/plugins/org.talend.designer.core/src/main/java/org/talend/designer/core/ui/editor/nodecontainer/NodeContainerFigure.java:277-280 | The loop appending one bullet per message yields the prefix followed by all bullets in order. |
| NodeStatus.BuildWarningPart | main/plugins/org.talend.designer.core/src/main/java/org/talend/designer/core/ui/editor/nodecontainer/NodeContainerFigure.java:275-282 | The warning section under WARNING_STATUS, empty otherwise. |
| NodeStatus.BuildErrorPart | main/plugins/org.talend.designer.core/src/main/java/org/talend/designer/core/ui/editor/nodecontainer/NodeContainerFigure.java:283-294 | The error section under ERROR_STATUS: the singular or plural heading, then the bullets. Empty otherwise. |
| NodeStatus.BuildHint | main/plugins/org.talend.designer.core/src/main/java/org/talend/designer/core/ui/editor/nodecontainer/NodeContainerFigure.java:273-295 | The hint built by repeated `String` concatenation equals `HintText`. |
| NodeStatus.HintStartsWithName | main/plugins/org.talend.designer.core/src/main/java/org/talend/designer/core/ui/editor/nodecontainer/NodeContainerFigure.java:273-274 | The hint starts with the bold unique name and two line breaks. |
| NodeStatus.WarningListed | main/plugins/org.talend.designer.core/src/main/java/org/talend/designer/core/ui/editor/nodecontainer/NodeContainerFigure.java:275-282 | Under WARNING_STATUS every warning appears as a bullet inside the warning section of the hint. |
| NodeStatus.ErrorListed | main/plugins/org.talend.designer.core/src/main/java/org/talend/designer/core/ui/editor/nodecontainer/NodeContainerFigure.java:283-294 | With errors flagged, every error appears whole as a bullet at its offset. The offset is after the warning section when warnings are flagged, and right after the header otherwise. |
| NodeStatus.WarningsBeforeErrors | main/plugins/org.talend.designer.core/src/main/java/org/talend/designer/core/ui/editor/nodecontainer/NodeContainerFigure.java:273-295 | Every warning bullet ends before every error bullet begins. |
| NodeStatus.NodeContainerFigure.constructor | main/plugins/org.talend.designer.core/src/main/java/org/talend/designer/core/ui/editor/nodecontainer/NodeContainerFigure.java:94-191 | All badges and the mark start hidden, the alpha unset (-1), no tooltip, and neither the breakpoint badge nor the figure has a border. The parallel badge exists in the team edition only, labelled "x0" and shown iff PARALLELIZE is true. |
| NodeStatus.NodeContainerFigure.UpdateErrorFlag | main/plugins/org.talend.designer.core/src/main/java/org/talend/designer/core/ui/editor/nodecontainer/NodeContainerFigure.java:223-226 | The mark rectangle and the mark image both follow the flag. The method may change no other field. |
| NodeStatus.NodeContainerFigure.SetAlpha | main/plugins/org.talend.designer.core/src/main/java/org/talend/designer/core/ui/editor/nodecontainer/NodeContainerFigure.java:431-433 | Stores the alpha. |
| NodeStatus.NodeContainerFigure.PaintAlpha | main/plugins/org.talend.designer.core/src/main/java/org/talend/designer/core/ui/editor/nodecontainer/NodeContainerFigure.java:391-396 | Painting uses 255 when the stored alpha is -1 and the stored alpha otherwise. |
| NodeStatus.NodeContainerFigure.UpdateParallelFigure | main/plugins/org.talend.designer.core/src/main/java/org/talend/designer/core/ui/editor/nodecontainer/NodeContainerFigure.java:328-348 | Without the badge nothing changes. With it, the badge shows iff PARALLEL_STATUS is set, and then reads "x" plus the PARALLELIZE_NUMBER value ("0" when missing), in text and tooltip. |
| NodeStatus.NodeContainerFigure.UpdateValidationRuleFigure | main/plugins/org.talend.designer.core/src/main/java/org/talend/designer/core/ui/editor/nodecontainer/NodeContainerFigure.java:316-321 | The validation-rule badge follows VALIDATION_RULES when it is a Boolean and is otherwise left as is. |
| NodeStatus.NodeContainerFigure.UpdateBadges | main/plugins/org.talend.designer.core/src/main/java/org/talend/designer/core/ui/editor/nodecontainer/NodeContainerFigure.java:233-260 | The step-by-step badge writes, each reading the earlier ones, leave exactly `BadgesFor`. A hidden error or warning badge has no tooltip. |
| NodeStatus.NodeContainerFigure.UpdateBorders | main/plugins/org.talend.designer.core/src/main/java/org/talend/designer/core/ui/editor/nodecontainer/NodeContainerFigure.java:262-268 | Both borders are set iff BREAKPOINT_ACTIVE_STATUS. |
| NodeStatus.NodeContainerFigure.UpdateHint | main/plugins/org.talend.designer.core/src/main/java/org/talend/designer/core/ui/editor/nodecontainer/NodeContainerFigure.java:270-307 | With a problem badge showing, the hint text is `HintText`. The hint goes to the error badge if it shows, to neither if info shows, and else to the warning badge. Without a problem badge the text is left as is. |
| NodeStatus.NodeContainerFigure.UpdateProblemFigures | main/plugins/org.talend.designer.core/src/main/java/org/talend/designer/core/ui/editor/nodecontainer/NodeContainerFigure.java:233-307 | Combines the three steps above and their outcomes. |
| NodeStatus.NodeContainerFigure.UpdateStatus | main/plugins/org.talend.designer.core/src/main/java/org/talend/designer/core/ui/editor/nodecontainer/NodeContainerFigure.java:232-314 | The badges are `BadgesFor`, the tooltips go to the visible error or warning badge only, and the hint text is `HintText`. The borders and the validation badge are as above. When the parallel figure exists, it is visible iff PARALLEL is flagged, and then its text and tooltip are the `ParallelLabel`. Otherwise the parallel text and tooltip keep their values. The mark and the alpha are not touched. |
| CheckControl.BooleanValueOfIsLowerTrue | main/plugins/org.talend.designer.core/src/main/java/org/talend/designer/core/ui/editor/properties/controllers/CheckController.java:230 | `Boolean.valueOf(s)` (equalsIgnoreCase "true") holds iff the lower-cased string is "true". |
| CheckControl.NameOf | main/plugins/org.talend.designer.core/src/main/java/org/talend/designer/core/ui/editor/properties/controllers/CheckController.java:82-101 | The name read from a string compares it with the three known texts. The result is well formed and names that very string. |
| CheckControl.NameOfText | main/plugins/org.talend.designer.core/src/main/java/org/talend/designer/core/ui/editor/properties/controllers/CheckController.java:82-101 | For distinct known texts, every well-formed name reads back as itself. So testing for `Activate` or `UseDynamicJob` is the same as the host's `equals` on the name. |
| CheckControl.Selection | main/plugins/org.talend.designer.core/src/main/java/org/talend/designer/core/ui/editor/properties/controllers/CheckController.java:227-233 | A null value gives unchecked, a Boolean itself, and a String `Boolean.valueOf`. Any other value type is the ClassCastException of the cast. |
| CheckControl.JavaDivRemainder | main/plugins/org.talend.designer.core/src/main/java/org/talend/designer/core/ui/editor/properties/controllers/CheckController.java:160 | `JavaDiv` is Java's integer division: the remainder it leaves is zero or has the dividend's sign, and is smaller in magnitude than the divisor. |
| CheckControl.LeftPercent | main/plugins/org.talend.designer.core/src/main/java/org/talend/designer/core/ui/editor/properties/controllers/CheckController.java:160 | The left offset `((numInRow-1)*MAX_PERCENT)/nbInRow` with Java's truncating division; undefined (division by zero) iff nbInRow is 0. |
| CheckControl.LeftPercentInRow | main/plugins/org.talend.designer.core/src/main/java/org/talend/designer/core/ui/editor/properties/controllers/CheckController.java:160 | For 1 <= numInRow <= nbInRow the offset lies in [0, MAX_PERCENT) and is the floor of the exact quotient. |
| CheckControl.CreateCommand | main/plugins/org.talend.designer.core/src/main/java/org/talend/designer/core/ui/editor/properties/controllers/CheckController.java:72-117 | First, the process parameter is cleared to "" iff a dynamic job is switched on for a node whose non-empty process is an M/R job. Then ACTIVATE gives an activate-status command on exactly the node or the connection, and no command on other elements. Every other parameter gives a property change carrying the new Boolean. |
| CheckControl.CheckController.constructor | main/plugins/org.talend.designer.core/src/main/java/org/talend/designer/core/ui/editor/properties/controllers/CheckController.java:62-64 | The controller is bound to its element and holds no checkbox yet. |
| CheckControl.CheckController.CreateControl | main/plugins/org.talend.designer.core/src/main/java/org/talend/designer/core/ui/editor/properties/controllers/CheckController.java:126-175 | Fails (division by zero) iff outside a wizard, without a previous control and with nbInRow 0. Otherwise the control table gains the new button, unselected. Its enabled flag is: not read-only, and either a fake element or the repository value is not used. The form data attaches at the top, and on the right (wizard) or left (otherwise) to the previous control, the right edge, or the row percentage. |
| CheckControl.CheckController.Refresh | main/plugins/org.talend.designer.core/src/main/java/org/talend/designer/core/ui/editor/properties/controllers/CheckController.java:220-238 | A missing or disposed control changes nothing and yields no result, distinct from any refresh outcome. Otherwise the selection becomes `Selection` of the value, or the cast fails with nothing changed. Tacokit or context-mode parameters also take the widget's enabled state. |
| SubjobFigure.Fixed | main/plugins/org.talend.designer.core/src/main/java/org/talend/designer/core/ui/editor/subjobcontainer/SubjobContainerFigure.java:198-211 | A colour property that is set, non-empty and not forbidden is kept; any other value becomes the default. |
| SubjobFigure.RemoveFirstOthers | main/plugins/org.talend.designer.core/src/main/java/org/talend/designer/core/ui/editor/subjobcontainer/SubjobContainerFigure.java:215-216 | Removing a rectangle from a list without duplicates removes every occurrence. It keeps the list duplicate-free and the other children in order. |
| SubjobFigure.RestackedOrder | main/plugins/org.talend.designer.core/src/main/java/org/talend/designer/core/ui/editor/subjobcontainer/SubjobContainerFigure.java:215-230 | After updateData, with the title shown the body rectangle is child 0 and the outline child 1; without it the reverse. All other children follow in their old order, and no child is duplicated. |
| SubjobFigure.UpdateDataMeaning | main/plugins/org.talend.designer.core/src/main/java/org/talend/designer/core/ui/editor/subjobcontainer/SubjobContainerFigure.java:184-213 | The title is " Prejob:" or " Postjob:" plus the subjob title for tPrejob or tPostjob start nodes, and hides the show-title parameter. Otherwise it is the subjob title and the parameter shows. A missing, empty or forbidden colour becomes its formatted default and is stored back. The body colour is parsed from the stored subjob colour. |
| SubjobFigure.UpdateDataIdempotent | main/plugins/org.talend.designer.core/src/main/java/org/talend/designer/core/ui/editor/subjobcontainer/SubjobContainerFigure.java:184-231 | A second updateData changes neither the figure nor the properties. In particular the rectangles' child lists are not duplicated. |
| SubjobFigure.TitleColorSettles | main/plugins/org.talend.designer.core/src/main/java/org/talend/designer/core/ui/editor/subjobcontainer/SubjobContainerFigure.java:105-123 | After initialisation the title colour property always holds a value, and initialising again leaves that value unchanged. The property is rewritten only when the figure takes the preference default. |
| SubjobFigure.GetBorder | main/plugins/org.talend.designer.core/src/main/java/org/talend/designer/core/ui/editor/subjobcontainer/SubjobContainerFigure.java:271-288 | A 2-pixel solid line border iff there is a start node and it is not a joblet. Otherwise the border is the inherited one. |
| SubjobFigure.SubjobContainerFigure.constructor | main/plugins/org.talend.designer.core/src/main/java/org/talend/designer/core/ui/editor/subjobcontainer/SubjobContainerFigure.java:70-81 | initSubJobTitleColor and then updateData on a fresh figure: the properties and drawing are the spec functions' results. |
| SubjobFigure.SubjobContainerFigure.InitSubJobTitleColor | main/plugins/org.talend.designer.core/src/main/java/org/talend/designer/core/ui/editor/subjobcontainer/SubjobContainerFigure.java:105-123 | The stored title colour and the figure's title colour are as `TitleColorInitialized` says, and nothing else changes. |
| SubjobFigure.SubjobContainerFigure.UpdateData | main/plugins/org.talend.designer.core/src/main/java/org/talend/designer/core/ui/editor/subjobcontainer/SubjobContainerFigure.java:184-231 | The properties become `PropertiesUpdated` and the drawing `DrawingUpdated` of the ones before. |
| SubjobFigure.SubjobContainerFigure.UpdateTitle | main/plugins/org.talend.designer.core/src/main/java/org/talend/designer/core/ui/editor/subjobcontainer/SubjobContainerFigure.java:186-197 | Show-title and the prefixed title are read, and the show-title parameter is shown iff there is no prefix. |
| SubjobFigure.SubjobContainerFigure.FixColors | main/plugins/org.talend.designer.core/src/main/java/org/talend/designer/core/ui/editor/subjobcontainer/SubjobContainerFigure.java:198-213 | Both colour properties become `Fixed`, and the body colour is parsed from the subjob colour. |
| SubjobFigure.SubjobContainerFigure.Restack | main/plugins/org.talend.designer.core/src/main/java/org/talend/designer/core/ui/editor/subjobcontainer/SubjobContainerFigure.java:215-230 | The children become `Restacked`. The outline holds the title, plus the collapse control when the title shows; otherwise the body rectangle holds the collapse control. |
| SubjobFigure.SubjobContainerFigure.UpdateSubJobTitleColor | main/plugins/org.talend.designer.core/src/main/java/org/talend/designer/core/ui/editor/subjobcontainer/SubjobContainerFigure.java:171-179 | A set, non-empty title colour is parsed strictly. Any other value goes through initSubJobTitleColor. Then updateData runs. |

## Left out

- Painting, layout and SWT/draw2d resources are not modelled. This covers `fillShape`, `super.paint`, colours, images, fonts, sizes, `initializeNodeContainer`, `initializeSubjobContainer`, `initFigure` and `estimateRowSize`. These are UI geometry with no logic of their own. A figure's children are modelled by identity only.
- `NodeContainerFigure.updateWindowFigure` and `addWindowFigure` are not modelled. They format window durations through `NodeContainerUtils`, which is not part of this model.
- `NodeContainerFigure.setInfoHint` is not modelled. It only sets or clears the info badge's tooltip for callers outside the status update.
- The compare mark is not modelled. It only colours and shows the mark rectangle while the figure is laid out (`initializeNodeContainer`), which is painting.
- `NodeContainerFigure.addListenerForDialog` is not modelled. Its body is empty.
- `ConnectionReconnectCommand.setSchemaToNotBuiltInNode` is not modelled. It copies columns into connector tables found through connector lookups whose code is not part of this model. The other `MetadataToolHelper` and `IMetadataTable` behaviour is reduced: `sameMetadataAs` is equality of the column lists, and `clone` is a value copy.
- External-node input/output updates (`ExternalNodeChangeCommand`), `updateName`, `checkStartNodes`, `checkProcess` and the joblet node-container input/output resets in reconnect are not modelled. They call host code that is not part of this model.
- `ChangeMetadataCommand` is reduced to replacing the target component's schema table and remembering the previous one for undo. Its own propagation to further components is not modelled.
- ConnectionReconnect.ConnectionReconnectCommand.Execute: the `SourceReady` and `TargetReady` preconditions exclude the host's unchecked exits, which are not modelled.
  - A null `oldMetadataTable` on a FLOW connection with a multi-schema end is a NullPointerException (`ConnectionReconnectCommand.java:227`, `:236`, `:245`).
  - An empty old-source metadata list makes `remove(num)` an IndexOutOfBoundsException (`:231`, `:249`).
  - A missing output connector of the old or new source is a NullPointerException on any line style (`:211-214`).
  - A missing input connector of the old target for the old style, or of the new target for the new style, is a NullPointerException (`:305-308`).
  - These exits are not failure values because the host throws part-way, after some lists have already changed.
- ConnectionReconnect.ConnectionReconnectCommand.Undo: the `SourceUndoReady` and `TargetUndoReady` preconditions exclude undo's unchecked exits, which are not modelled either.
  - A missing output connector of the old or new source is a NullPointerException (`:377-380`).
  - A missing input connector of the old target for the old style, or of the new target for the new style, is a NullPointerException (`:429-432`).
  - A null `oldMetadataTable` is a NullPointerException (`:390`, `:408`).
  - An empty new-source list makes `remove(num)` an IndexOutOfBoundsException (`:400`, `:412`).
  - Undo also requires that every logged metadata change concerns a component of the model (`ChangesIn`).
- ConnectionReconnect.ConnectionReconnectCommand.SourcePropagates and ConnectionReconnect.ConnectionReconnectCommand.TargetPropagates: these compare with `schemaTables`, which holds one schema table per component. That table is independent of the component's `metadataLists` and of the connector that `getMetadataFromConnector` looks up (`ConnectionReconnectCommand.java:278`, `:331`).
  - `ChangeMetadata` replaces only that table and never touches the lists.
  - In the host the connector's table can be one of the moved list entries, so a move could change what is compared and propagated. The model does not capture that sharing, and `SourceRoundTrip`'s table restore relies on its absence.
- `ConnectionManager.canConnectToSource`, `canConnectToTarget` and `getNewConnectionType`, the test-container service and the propagate dialog are inputs (`canConnect`, `newConnectionType`, `testContainerBlocks`, `answer`). Their code is not part of this model.
- ConnectionReconnect.ConnectionReconnectCommand.SourceRoundTrip: a multi-schema old source gets its table back at the end of its metadata list, not at its original index. The meta name after undo is whatever undo's last branch wrote, not necessarily the value before execute. The lemma states these outcomes exactly as the code produces them instead of claiming a full restore. It also assumes the new connection type has the same FLOW category as the old one: execute tests the category before the reconnect and undo tests it after, and with different categories the two branches do not match. Finally, it requires that a non-FLOW connection starts with no saved new-source schema type. This holds in every reachable state: the field starts null, execute writes it only in its FLOW branch (`ConnectionReconnectCommand.java:216`), and execute always sees the connection's original line style.
- `ContextModifyCommand.removeContextFiles`, `getContextResource`, `refreshContextView` and `fireContextsChangedEvent` are not modelled. They are file-system, workbench and event side effects.
- `JobContext.getContextParameter` is not part of this model. It is taken to return the first variable with the given name. A lookup that would return null (a NullPointerException in the host) is excluded by the `Covers` and `Ready` preconditions.
- ContextModify.Ready, ContextModify.Executed and ContextModify.Covers: the model assumes that every context of the manager carries every variable name of the live and the saved context. The host dereferences the other contexts' lookups only when a type changed (`ContextModifyCommand.java:80-81`, `:97-98`), and would throw a NullPointerException where a name is missing. The model excludes that case for every call, not only for changed types.
- `IContext.clone` is taken to be a deep copy, so the snapshot kept for the next undo or redo does not share variables with the live context. Its code is not part of this model.
- Context variables are updated in place in the host. The model writes the updated context back into the manager's list, so the aliasing cases are not modelled: the live context held twice in the manager, or the saved context being one of the manager's objects.
- ContextModify.ContextModifyCommand.PropagateType: the host reads the live variable's name and type on every iteration. The model reads them once. They cannot change during the loop, because the live variable is set to the type it already has.
- ContextModify.UndoRedo: it holds only when the live context's names are unique and every context already agrees with the live context's types. Without these, the first-match copy and the propagation need not cancel. The saved context after undo followed by redo is the one undo produced, not the original saved context.
- The status word of a node is a set of flags. The bit values of `Process` are not part of this model. `Problems.getStatusList` is replaced by the `warnings` and `errors` message lists.
- CheckControl.LeftPercent: the 32-bit `int` overflow of `(numInRow - 1) * MAX_PERCENT` (`CheckController.java:160`) is not modelled. The product is an unbounded integer.
- Host values that the code reads as `Object` and casts are given their types in the model, so a null or wrongly typed value cannot be represented. The ClassCastException of a wrong type, the NullPointerException of unboxing a null `Boolean`, and the text "null" that Java's `+` makes of a null `String` are therefore not modelled. The values are:
  - PARALLELIZE, a `bool` (`(Boolean)` at `NodeContainerFigure.java:186`);
  - SHOW_SUBJOB_TITLE, a `bool` (`SubjobContainerFigure.java:186`);
  - PARALLELIZE_NUMBER, a `string` (`(String)` at `NodeContainerFigure.java:339`, concatenated at `:341`);
  - SUBJOB_TITLE, a `string` (`SubjobContainerFigure.java:188`, concatenated at `:190` and `:193`);
  - the control table, which holds only checkboxes (`(Button)` at `CheckController.java:221`).
- `MAX_PERCENT` and `HSPACE`, which `CheckController.createControl` inherits, are not part of this model. `MAX_PERCENT` is a parameter.
- The tooltip text, the repository decoration and the selection listener of `CheckController.createControl` are UI wiring and are not modelled. The M/R job lookup through `RepositorySeekerManager` is the `isMapReduceJob` input.
- `DesignerColorUtils` and `ColorUtils` (the preference colours, the forbidden-colour test, and RGB parsing and formatting) are fields of `ColorEnv`. Their code is not part of this model.
- SubjobFigure.SubjobContainerFigure.constructor: a subjob without a start node is excluded by a precondition. The host would throw a NullPointerException there (`SubjobContainerFigure.java:108`).
- SubjobFigure.SubjobContainerFigure.InitSubJobTitleColor, SubjobFigure.SubjobContainerFigure.UpdateData, SubjobFigure.SubjobContainerFigure.UpdateTitle and SubjobFigure.SubjobContainerFigure.UpdateSubJobTitleColor carry the same start-node precondition. The host dereferences the start node unguarded at `SubjobContainerFigure.java:108` and `:189`; that exit is not modelled.
- The collapse action listener and `SubjobCollapseFigure` are not modelled (UI wiring).
