/**
 * The command that moves one end of a job connection to another component,
 * and its undo: the per-connector link counters of both ends, the moves of
 * metadata tables between the old and new source for multi-schema
 * connectors, the schema propagation to the target, and the record of the
 * metadata changes that undo reverts.
 *
 * Each component field the command changes is a map from component to
 * value, so two names for the same component (old and new source being one
 * component, say) alias exactly as the objects do.
 */
module ConnectionReconnect {
  import opened Common

  type NodeId = nat

  /** A metadata table: its name and its columns. */
  datatype Table = Table(tableName: string, columns: seq<string>)

  /** A connection type: its name and whether it has the FLOW and DATA categories. */
  datatype LineStyle = LineStyle(name: string, flow: bool, data: bool)

  /** The connection type and schema-type values compared against. */
  const FlowRefName := "FLOW_REF"
  const Repository := "REPOSITORY"
  const BuiltIn := "BUILT_IN"

  /** The parts of a component the command reads but never changes. */
  datatype Component = Component(
    uniqueName: string,
    /** names of the output connectors that are multi-schema */
    multiSchema: set<string>,
    schemaAutoPropagated: bool,
    /** whether the component belongs to a joblet */
    inJoblet: bool)

  datatype Conn = Conn(source: NodeId, target: NodeId, lineStyle: LineStyle,
                       connectorName: string, uniqueName: string, metaName: string,
                       activate: bool, metadataTable: Option<Table>)

  /** An executed metadata change: the component whose table it replaced, and that table before. */
  datatype MetadataChange = MetadataChange(node: NodeId, previous: Option<Table>)

  datatype Failure = IllegalState

  /** Whether two tables describe the same columns. */
  predicate SameMetadata(a: Table, b: Table)
  {
    a.columns == b.columns
  }

  /**
   * The value of the `num` search in execute and undo: the index of the last
   * table called `name`, or 0 when none is.
   */
  function LastMatchIndex(list: seq<Table>, name: string): nat
    decreases |list|
  {
    if list == [] then 0
    else if list[|list| - 1].tableName == name then |list| - 1
    else LastMatchIndex(list[..|list| - 1], name)
  }

  /** The last table called `name` is found; with none, index 0. */
  lemma {:induction false} LastMatchIndexIsLast(list: seq<Table>, name: string)
    ensures list != [] ==> LastMatchIndex(list, name) < |list|
    ensures forall j | LastMatchIndex(list, name) < j < |list| :: list[j].tableName != name
    ensures (LastMatchIndex(list, name) < |list| && list[LastMatchIndex(list, name)].tableName == name)
            || (LastMatchIndex(list, name) == 0 && forall j | 0 <= j < |list| :: list[j].tableName != name)
    decreases |list|
  {
    if list != [] && list[|list| - 1].tableName != name {
      var init := list[..|list| - 1];
      LastMatchIndexIsLast(init, name);
      assert forall j | 0 <= j < |init| :: init[j] == list[j];
    }
  }

  /** The `for` loop of execute and undo that looks for the table to remove. */
  method FindLastMatch(list: seq<Table>, name: string) returns (num: nat)
    ensures num == LastMatchIndex(list, name)
  {
    num := 0;
    for i := 0 to |list|
      invariant num == LastMatchIndex(list[..i], name)
    {
      assert list[..i + 1][..i] == list[..i];
      if list[i].tableName == name {
        num := i;
      }
    }
    assert list[..|list|] == list;
  }

  function RemoveAt(list: seq<Table>, k: nat): (r: seq<Table>)
    requires k < |list|
    ensures |r| == |list| - 1
  {
    list[..k] + list[k + 1..]
  }

  /** Removing the last table called like one just appended takes that one off again. */
  lemma RemoveAppended(list: seq<Table>, t: Table)
    ensures LastMatchIndex(list + [t], t.tableName) == |list|
    ensures RemoveAt(list + [t], |list|) == list
  {
    assert (list + [t])[..|list|] == list;
  }

  /** One connector's link counter of one component moved by `d`. */
  function Bump<K>(links: map<NodeId, map<K, int>>, id: NodeId, key: K, d: int): map<NodeId, map<K, int>>
    requires id in links && key in links[id]
  {
    links[id := links[id][key := links[id][key] + d]]
  }

  lemma BumpCancels<K>(links: map<NodeId, map<K, int>>, id: NodeId, key: K, d: int)
    requires id in links && key in links[id]
    ensures Bump(Bump(links, id, key, d), id, key, -d) == links
  {
    assert Bump(Bump(links, id, key, d), id, key, -d)[id] == links[id];
  }

  lemma BumpsCommute<K>(links: map<NodeId, map<K, int>>, i: NodeId, ki: K, di: int, j: NodeId, kj: K, dj: int)
    requires i in links && ki in links[i] && j in links && kj in links[j]
    ensures Bump(Bump(links, i, ki, di), j, kj, dj) == Bump(Bump(links, j, kj, dj), i, ki, di)
  {
    if i == j {
      assert Bump(Bump(links, i, ki, di), j, kj, dj)[i] == Bump(Bump(links, j, kj, dj), i, ki, di)[i];
    }
  }

  /**
   * Moving one link from `(i, ki)` to `(j, kj)` and back restores every
   * counter, also when the two are the same.
   */
  lemma BumpsRoundTrip<K>(links: map<NodeId, map<K, int>>, i: NodeId, ki: K, j: NodeId, kj: K)
    requires i in links && ki in links[i] && j in links && kj in links[j]
    ensures Bump(Bump(Bump(Bump(links, i, ki, -1), j, kj, 1), i, ki, 1), j, kj, -1) == links
  {
    var a := Bump(links, i, ki, -1);
    BumpsCommute(a, j, kj, 1, i, ki, 1);
    BumpCancels(Bump(a, i, ki, 1), j, kj, 1);
    BumpCancels(links, i, ki, -1);
  }

  /** Writing back the value a map already holds leaves it as it was. */
  lemma UpdateSame<K, V>(m: map<K, V>, k: K)
    requires k in m
    ensures m[k := m[k]] == m
  {
  }

  /** Every recorded change names a component that has a schema table. */
  predicate ChangesIn(changes: seq<MetadataChange>, tables: map<NodeId, Option<Table>>)
  {
    forall i | 0 <= i < |changes| :: changes[i].node in tables
  }

  /** The schema tables after undoing the recorded changes in list order. */
  function Restored(tables: map<NodeId, Option<Table>>, changes: seq<MetadataChange>): (r: map<NodeId, Option<Table>>)
    requires ChangesIn(changes, tables)
    ensures r.Keys == tables.Keys
    decreases |changes|
  {
    if changes == [] then tables
    else
      var last := changes[|changes| - 1];
      Restored(tables, changes[..|changes| - 1])[last.node := last.previous]
  }

  /** Undoing the one change that replaced a table puts that table back. */
  lemma RestoredOne(tables: map<NodeId, Option<Table>>, id: NodeId, t: Option<Table>)
    requires id in tables
    ensures Restored(tables[id := t], [MetadataChange(id, tables[id])]) == tables
  {
    assert [MetadataChange(id, tables[id])][..0] == [];
    UpdateSame(tables, id);
    assert tables[id := t][id := tables[id]] == tables[id := tables[id]];
  }

  /**
   * The components and the connection, and the command state that execute
   * and undo hand to each other.
   */
  datatype World = World(
    components: map<NodeId, Component>,
    /** current output link count of each output connector, by connector name */
    outputLinks: map<NodeId, map<string, int>>,
    /** current input link count of the input connector of each connection type */
    inputLinks: map<NodeId, map<LineStyle, int>>,
    metadataLists: map<NodeId, seq<Table>>,
    /** the metadata table of the connector the connection attaches to */
    schemaTables: map<NodeId, Option<Table>>,
    /** the SCHEMA_TYPE property, `None` when the component has none */
    schemaTypes: map<NodeId, Option<string>>,
    connection: Conn,
    changes: seq<MetadataChange>,
    newSourceSchemaType: Option<string>,
    newTargetSchemaType: Option<string>)

  /** Whether the world holds every field of component `id`. */
  predicate Known(w: World, id: NodeId)
  {
    id in w.components && id in w.outputLinks && id in w.inputLinks && id in w.metadataLists &&
    id in w.schemaTables && id in w.schemaTypes
  }

  /** connection.reconnect: the new ends and connection type. */
  function Reconnected(w: World, source: NodeId, target: NodeId, style: LineStyle): World
  {
    w.(connection := w.connection.(source := source, target := target, lineStyle := style))
  }

  function WithMetaName(w: World, name: string): World
  {
    w.(connection := w.connection.(metaName := name))
  }

  /** Removes, from component `id`'s metadata list, the table found by the `num` search. */
  function RemoveLastMatch(w: World, id: NodeId, name: string): World
    requires id in w.metadataLists && |w.metadataLists[id]| > 0
  {
    var list := w.metadataLists[id];
    LastMatchIndexIsLast(list, name);
    w.(metadataLists := w.metadataLists[id := RemoveAt(list, LastMatchIndex(list, name))])
  }

  function AppendTable(w: World, id: NodeId, t: Table): World
    requires id in w.metadataLists
  {
    w.(metadataLists := w.metadataLists[id := w.metadataLists[id] + [t]])
  }

  /** A ChangeMetadataCommand run on component `id` with table `t`, recorded for undo. */
  function ChangeMetadata(w: World, id: NodeId, t: Table): World
    requires id in w.schemaTables
  {
    w.(schemaTables := w.schemaTables[id := Some(t)],
       changes := w.changes + [MetadataChange(id, w.schemaTables[id])])
  }

  /** The job's components and the connection being moved. */
  class JobProcess {
    var components: map<NodeId, Component>
    var outputLinks: map<NodeId, map<string, int>>
    var inputLinks: map<NodeId, map<LineStyle, int>>
    var metadataLists: map<NodeId, seq<Table>>
    var schemaTables: map<NodeId, Option<Table>>
    var schemaTypes: map<NodeId, Option<string>>
    var connection: Conn

    constructor (w: World)
      ensures components == w.components && outputLinks == w.outputLinks && inputLinks == w.inputLinks
      ensures metadataLists == w.metadataLists && schemaTables == w.schemaTables
      ensures schemaTypes == w.schemaTypes && connection == w.connection
    {
      components := w.components;
      outputLinks := w.outputLinks;
      inputLinks := w.inputLinks;
      metadataLists := w.metadataLists;
      schemaTables := w.schemaTables;
      schemaTypes := w.schemaTypes;
      connection := w.connection;
    }
  }

  class ConnectionReconnectCommand {
    const process: JobProcess
    const oldSource: NodeId
    const oldTarget: NodeId
    const connectorName: string
    const oldLineStyle: LineStyle
    /** A copy of the connection's table, taken only for a DATA connection. */
    const oldMetadataTable: Option<Table>
    const oldSourceSchemaType: Option<string>
    var newSource: Option<NodeId>
    var newTarget: Option<NodeId>
    var newLineStyle: LineStyle
    var newSourceSchemaType: Option<string>
    var newTargetSchemaType: Option<string>
    var metadataChanges: seq<MetadataChange>

    /** The command remembers the connection's ends, connector, type, table and the source's schema type. */
    constructor (p: JobProcess)
      requires p.connection.source in p.schemaTypes
      ensures process == p
      ensures oldSource == p.connection.source && oldTarget == p.connection.target
      ensures connectorName == p.connection.connectorName
      ensures oldLineStyle == p.connection.lineStyle && newLineStyle == oldLineStyle
      ensures oldMetadataTable == (if oldLineStyle.data then p.connection.metadataTable else None)
      ensures oldSourceSchemaType == p.schemaTypes[oldSource]
      ensures newSource == None && newTarget == None && metadataChanges == []
      ensures newSourceSchemaType == None && newTargetSchemaType == None
    {
      process := p;
      oldSource := p.connection.source;
      oldTarget := p.connection.target;
      connectorName := p.connection.connectorName;
      oldLineStyle := p.connection.lineStyle;
      newLineStyle := p.connection.lineStyle;
      oldMetadataTable := if p.connection.lineStyle.data && p.connection.metadataTable.Some?
                          then p.connection.metadataTable else None;
      oldSourceSchemaType := p.schemaTypes[p.connection.source];
      newSource := None;
      newTarget := None;
      newSourceSchemaType := None;
      newTargetSchemaType := None;
      metadataChanges := [];
    }

    /** Choosing a new source drops a pending new target. */
    method SetNewSource(node: NodeId)
      modifies this`newSource, this`newTarget
      ensures newSource == Some(node) && newTarget == None
    {
      newSource := Some(node);
      newTarget := None;
    }

    /** Choosing a new target drops a pending new source. */
    method SetNewTarget(node: NodeId)
      modifies this`newSource, this`newTarget
      ensures newSource == None && newTarget == Some(node)
    {
      newSource := None;
      newTarget := Some(node);
    }

    /**
     * canExecute.  `testContainerBlocks` says whether the test-container
     * service is registered and both old ends are original or test-case
     * components; `canConnect` is the connection manager's verdict on the
     * connection it is shown (deactivated) and `newConnectionType` the type
     * the manager proposes.
     */
    method CanExecute(testContainerBlocks: bool, canConnect: Conn -> bool, newConnectionType: LineStyle)
      returns (ok: bool)
      requires oldSource in process.components && oldTarget in process.components
      modifies this`newLineStyle, process`connection
      ensures process.connection == old(process.connection)
      ensures ok <==> old(process.connection.activate) && !process.components[oldSource].inJoblet &&
                      !process.components[oldTarget].inJoblet && !testContainerBlocks &&
                      (newSource.Some? || newTarget.Some?) &&
                      canConnect(old(process.connection).(activate := false))
      ensures newLineStyle == (if ok then newConnectionType else old(newLineStyle))
    {
      ok := false;
      if !process.connection.activate {
        return false;
      }
      if process.components[oldSource].inJoblet {
        return false;
      }
      if process.components[oldTarget].inJoblet {
        return false;
      }
      if testContainerBlocks {
        return false;
      }
      if newSource.Some? || newTarget.Some? {
        // the connection is switched off for the check and on again after it
        process.connection := process.connection.(activate := false);
        if canConnect(process.connection) {
          newLineStyle := newConnectionType;
          ok := true;
        }
        process.connection := process.connection.(activate := true);
      }
    }

    /** Whether the connector `connectorName` of component `id` is multi-schema. */
    predicate MultiSchema(w: World, id: NodeId)
    {
      id in w.components && connectorName in w.components[id].multiSchema
    }

    /** What the source branch of execute needs: both connectors, and a table to move where one is moved. */
    predicate SourceReady(w: World, ns: NodeId)
    {
      Known(w, oldSource) && Known(w, ns) && Known(w, oldTarget) &&
      connectorName in w.outputLinks[oldSource] && connectorName in w.outputLinks[ns] &&
      (w.connection.lineStyle.flow && (MultiSchema(w, ns) || MultiSchema(w, oldSource)) ==>
         oldMetadataTable.Some? && (MultiSchema(w, oldSource) ==> |w.metadataLists[oldSource]| > 0))
    }

    /** The FLOW-connection part of execute's source branch: the table moves and the new meta name. */
    function SourceMoved(w: World, ns: NodeId): World
      requires SourceReady(w, ns) && w.connection.lineStyle.flow
    {
      var bNew := MultiSchema(w, ns);
      var bOld := MultiSchema(w, oldSource);
      var w1 := w.(newSourceSchemaType := w.schemaTypes[ns]);
      if !bNew && !bOld then WithMetaName(w1, w.components[ns].uniqueName)
      else
        var omt := oldMetadataTable.value;
        var w2 := if !bNew then WithMetaName(RemoveLastMatch(w1, oldSource, omt.tableName), w.components[ns].uniqueName)
                  else w1;
        var w3 := if !bOld then WithMetaName(AppendTable(w2, ns, omt.(tableName := w.connection.uniqueName)),
                                             w.connection.uniqueName)
                  else w2;
        if bOld && bNew then AppendTable(RemoveLastMatch(w3, oldSource, omt.tableName), ns, omt)
        else w3
    }

    /** Whether execute's source branch propagates the new source's table to the old target. */
    predicate SourcePropagates(w: World, ns: NodeId, answer: bool)
      requires ns in w.schemaTables && oldTarget in w.components
    {
      var st := w.schemaTables[ns];
      w.newSourceSchemaType.Some? && w.connection.lineStyle.data && oldMetadataTable.Some? && st.Some? &&
      !SameMetadata(oldMetadataTable.value, st.value) && w.components[oldTarget].schemaAutoPropagated &&
      (oldMetadataTable.value.columns == [] || answer)
    }

    /**
     * Execute's source branch: `ns` is the new source, `style` the new
     * connection type and `answer` the user's answer to the propagation
     * question.
     */
    function SourceExecuted(w: World, ns: NodeId, style: LineStyle, answer: bool): World
      requires SourceReady(w, ns)
    {
      var w1 := OutputLinkMoved(w, ns, -1);
      var w2 := if w1.connection.lineStyle.flow then SourceMoved(w1, ns)
                else WithMetaName(w1, w1.components[ns].uniqueName);
      SourcePropagated(Reconnected(w2, ns, oldTarget, style), ns, answer)
    }

    /** One output link of the connector taken from the old source (`d` = -1) or given back to it (`d` = 1). */
    function OutputLinkMoved(w: World, ns: NodeId, d: int): World
      requires oldSource in w.outputLinks && connectorName in w.outputLinks[oldSource]
      requires ns in w.outputLinks && connectorName in w.outputLinks[ns]
    {
      w.(outputLinks := Bump(Bump(w.outputLinks, oldSource, connectorName, d), ns, connectorName, -d))
    }

    /** The end of execute's source branch: the new source's table propagated to the old target, or nothing. */
    function SourcePropagated(w: World, ns: NodeId, answer: bool): World
      requires ns in w.schemaTables && oldTarget in w.schemaTables && oldTarget in w.components
    {
      if SourcePropagates(w, ns, answer) then ChangeMetadata(w, oldTarget, w.schemaTables[ns].value)
      else w
    }

    predicate TargetReady(w: World, nt: NodeId, style: LineStyle)
    {
      Known(w, oldTarget) && oldLineStyle in w.inputLinks[oldTarget] &&
      Known(w, nt) && style in w.inputLinks[nt]
    }

    /** Whether execute's target branch propagates the moved table to the new target `nt`. */
    predicate TargetPropagates(w: World, nt: NodeId, answer: bool)
      requires nt in w.schemaTables && nt in w.components
    {
      var tt := w.schemaTables[nt];
      w.connection.lineStyle.data && w.connection.lineStyle.name != FlowRefName &&
      oldMetadataTable.Some? && tt.Some? &&
      !SameMetadata(oldMetadataTable.value, tt.value) && w.components[nt].schemaAutoPropagated &&
      w.newTargetSchemaType != Some(Repository) && (tt.value.columns == [] || answer)
    }

    /** Execute's target branch: `nt` is the new target and `style` the new connection type. */
    function TargetExecuted(w: World, nt: NodeId, style: LineStyle, answer: bool): World
      requires TargetReady(w, nt, style)
    {
      var w1 := w.(newTargetSchemaType := w.schemaTypes[nt],
                   inputLinks := Bump(Bump(w.inputLinks, oldTarget, oldLineStyle, -1), nt, style, 1));
      TargetPropagated(Reconnected(w1, oldSource, nt, style), nt, answer)
    }

    /** The end of execute's target branch: the moved table propagated to the new target, or nothing. */
    function TargetPropagated(w: World, nt: NodeId, answer: bool): World
      requires nt in w.schemaTables && nt in w.components
    {
      if w.newTargetSchemaType.Some? && TargetPropagates(w, nt, answer) then
        ChangeMetadata(w, nt, oldMetadataTable.value).(schemaTypes := w.schemaTypes[nt := Some(BuiltIn)])
      else w
    }

    /** Execute, from world `w` with the command's pending ends and new connection type. */
    function Executed(w: World, ns: Option<NodeId>, nt: Option<NodeId>, style: LineStyle, answer: bool): World
      requires ns.Some? ==> SourceReady(w, ns.value)
      requires ns.None? && nt.Some? ==> TargetReady(w, nt.value, style)
    {
      var w0 := w.(changes := []);
      if ns.Some? then SourceExecuted(w0, ns.value, style, answer)
      else if nt.Some? then TargetExecuted(w0, nt.value, style, answer)
      else w0
    }

    /** The world as the command sees it. */
    function Current(): World
      reads this, process
    {
      World(process.components, process.outputLinks, process.inputLinks, process.metadataLists,
            process.schemaTables, process.schemaTypes, process.connection,
            metadataChanges, newSourceSchemaType, newTargetSchemaType)
    }

    /** The steps of execute's source branch that move tables between the metadata lists. */
    method MoveTablesOnExecute(ns: NodeId)
      requires SourceReady(Current(), ns) && process.connection.lineStyle.flow
      modifies this`newSourceSchemaType, process`metadataLists, process`connection
      ensures Current() == SourceMoved(old(Current()), ns)
    {
      newSourceSchemaType := process.schemaTypes[ns];
      var builtInNewSource := connectorName in process.components[ns].multiSchema;
      var builtInOldSource := connectorName in process.components[oldSource].multiSchema;
      if !builtInNewSource && !builtInOldSource {
        process.connection := process.connection.(metaName := process.components[ns].uniqueName);
      } else {
        var omt := oldMetadataTable.value;
        if !builtInNewSource {
          var list := process.metadataLists[oldSource];
          var num := FindLastMatch(list, omt.tableName);
          LastMatchIndexIsLast(list, omt.tableName);
          process.metadataLists := process.metadataLists[oldSource := RemoveAt(list, num)];
          process.connection := process.connection.(metaName := process.components[ns].uniqueName);
        }
        if !builtInOldSource {
          var meta := omt.(tableName := process.connection.uniqueName);
          process.metadataLists := process.metadataLists[ns := process.metadataLists[ns] + [meta]];
          process.connection := process.connection.(metaName := meta.tableName);
        }
        if builtInOldSource && builtInNewSource {
          var list := process.metadataLists[oldSource];
          var num := FindLastMatch(list, omt.tableName);
          LastMatchIndexIsLast(list, omt.tableName);
          process.metadataLists := process.metadataLists[oldSource := RemoveAt(list, num)];
          process.metadataLists := process.metadataLists[ns := process.metadataLists[ns] + [omt]];
        }
      }
    }

    method ExecuteSource(ns: NodeId, answer: bool)
      requires SourceReady(Current(), ns)
      modifies this`newSourceSchemaType, this`metadataChanges, process
      ensures Current() == SourceExecuted(old(Current()), ns, newLineStyle, answer)
      ensures |metadataChanges| <= |old(metadataChanges)| + 1
    {
      process.outputLinks := Bump(process.outputLinks, oldSource, connectorName, -1);
      process.outputLinks := Bump(process.outputLinks, ns, connectorName, 1);
      if process.connection.lineStyle.flow {
        MoveTablesOnExecute(ns);
      } else {
        process.connection := process.connection.(metaName := process.components[ns].uniqueName);
      }
      process.connection := process.connection.(source := ns, target := oldTarget, lineStyle := newLineStyle);
      PropagateToOldTarget(ns, answer);
    }

    /** The auto-propagation at the end of execute's source branch. */
    method PropagateToOldTarget(ns: NodeId, answer: bool)
      requires ns in process.schemaTables && oldTarget in process.schemaTables && oldTarget in process.components
      modifies this`metadataChanges, process`schemaTables
      ensures Current() == SourcePropagated(old(Current()), ns, answer)
      ensures |metadataChanges| <= |old(metadataChanges)| + 1
    {
      if newSourceSchemaType.Some? && process.connection.lineStyle.data {
        var sourceMetadataTable := process.schemaTables[ns];
        if oldMetadataTable.Some? && sourceMetadataTable.Some? {
          var sameFlag := SameMetadata(oldMetadataTable.value, sourceMetadataTable.value);
          if !sameFlag && process.components[oldTarget].schemaAutoPropagated &&
             (oldMetadataTable.value.columns == [] || answer) {
            metadataChanges := metadataChanges + [MetadataChange(oldTarget, process.schemaTables[oldTarget])];
            process.schemaTables := process.schemaTables[oldTarget := sourceMetadataTable];
          }
        }
      }
    }

    method ExecuteTarget(nt: NodeId, answer: bool)
      requires TargetReady(Current(), nt, newLineStyle)
      modifies this`newTargetSchemaType, this`metadataChanges, process
      ensures Current() == TargetExecuted(old(Current()), nt, newLineStyle, answer)
      ensures |metadataChanges| <= |old(metadataChanges)| + 1
    {
      newTargetSchemaType := process.schemaTypes[nt];
      process.inputLinks := Bump(process.inputLinks, oldTarget, oldLineStyle, -1);
      process.inputLinks := Bump(process.inputLinks, nt, newLineStyle, 1);
      process.connection := process.connection.(source := oldSource, target := nt, lineStyle := newLineStyle);
      PropagateToNewTarget(nt, answer);
    }

    /** The auto-propagation at the end of execute's target branch, which a REPOSITORY schema type blocks. */
    method PropagateToNewTarget(nt: NodeId, answer: bool)
      requires nt in process.schemaTables && nt in process.components
      modifies this`metadataChanges, process`schemaTables, process`schemaTypes
      ensures Current() == TargetPropagated(old(Current()), nt, answer)
      ensures |metadataChanges| <= |old(metadataChanges)| + 1
    {
      if newTargetSchemaType.Some? {
        var isPropagate := false;
        var isRepoMode := newTargetSchemaType.value == Repository;
        if process.connection.lineStyle.data && process.connection.lineStyle.name != FlowRefName {
          var targetOldMetadataTable := process.schemaTables[nt];
          if oldMetadataTable.Some? && targetOldMetadataTable.Some? {
            var sameFlag := SameMetadata(oldMetadataTable.value, targetOldMetadataTable.value);
            isPropagate := !sameFlag && process.components[nt].schemaAutoPropagated && !isRepoMode &&
                           (targetOldMetadataTable.value.columns == [] || answer);
            if isPropagate {
              metadataChanges := metadataChanges + [MetadataChange(nt, targetOldMetadataTable)];
              process.schemaTables := process.schemaTables[nt := oldMetadataTable];
            }
          }
        }
        if isPropagate {
          process.schemaTypes := process.schemaTypes[nt := Some(BuiltIn)];
        }
      }
    }

    /**
     * execute.  The change record is emptied first; with neither a new
     * source nor a new target the command fails with IllegalStateException.
     */
    method Execute(answer: bool) returns (r: Outcome<Failure>)
      requires newSource.Some? ==> SourceReady(Current(), newSource.value)
      requires newSource.None? && newTarget.Some? ==> TargetReady(Current(), newTarget.value, newLineStyle)
      modifies this`newSourceSchemaType, this`newTargetSchemaType, this`metadataChanges, process
      ensures r.Fail? <==> newSource.None? && newTarget.None?
      ensures r.Fail? ==> r.error == IllegalState
      ensures Current() == Executed(old(Current()), newSource, newTarget, newLineStyle, answer)
      ensures |metadataChanges| <= 1
    {
      metadataChanges := [];
      if newSource.Some? {
        ExecuteSource(newSource.value, answer);
        r := Pass;
      } else if newTarget.Some? {
        ExecuteTarget(newTarget.value, answer);
        r := Pass;
      } else {
        r := Fail(IllegalState);
      }
    }

    /** What undo's source branch needs: both connectors, and a table to move where one is moved. */
    predicate SourceUndoReady(w: World, ns: NodeId)
    {
      Known(w, oldSource) && Known(w, ns) &&
      connectorName in w.outputLinks[oldSource] && connectorName in w.outputLinks[ns] &&
      ChangesIn(w.changes, w.schemaTables) &&
      (w.connection.lineStyle.flow && (MultiSchema(w, ns) || MultiSchema(w, oldSource)) ==>
         oldMetadataTable.Some? && (MultiSchema(w, ns) ==> |w.metadataLists[ns]| > 0))
    }

    /** The FLOW-connection part of undo's source branch: the tables move back, then the schema is restored. */
    function SourceMovedBack(w: World, ns: NodeId): World
      requires SourceUndoReady(w, ns) && w.connection.lineStyle.flow
    {
      SourceSchemaRestored(TablesMovedBack(w, ns), ns)
    }

    /** The table moves of undo's source branch, and the meta name they leave. */
    function TablesMovedBack(w: World, ns: NodeId): (r: World)
      requires SourceUndoReady(w, ns) && w.connection.lineStyle.flow
    {
      var bNew := MultiSchema(w, ns);
      var bOld := MultiSchema(w, oldSource);
      if !bNew && !bOld then WithMetaName(w, w.components[oldSource].uniqueName)
      else
        var omt := oldMetadataTable.value;
        var wa := if !bNew then WithMetaName(AppendTable(w, oldSource, omt), omt.tableName) else w;
        var wb := if !bOld then WithMetaName(RemoveLastMatch(wa, ns, w.connection.uniqueName),
                                             w.components[oldSource].uniqueName)
                  else wa;
        if bOld && bNew then AppendTable(RemoveLastMatch(wb, ns, omt.tableName), oldSource, omt)
        else wb
    }

    /**
     * The end of undo's source branch: the recorded metadata changes undone
     * and the new source's schema type put back when execute read one, then
     * the old source's.
     */
    function SourceSchemaRestored(w: World, ns: NodeId): World
      requires ns in w.schemaTypes && oldSource in w.schemaTypes && ChangesIn(w.changes, w.schemaTables)
    {
      var w3 := if w.newSourceSchemaType.Some? then
                  w.(schemaTables := Restored(w.schemaTables, w.changes),
                     schemaTypes := w.schemaTypes[ns := w.newSourceSchemaType])
                else w;
      if oldSourceSchemaType.Some? then w3.(schemaTypes := w3.schemaTypes[oldSource := oldSourceSchemaType])
      else w3
    }

    /** Undo's source branch, the new source being `ns`. */
    function SourceUndone(w: World, ns: NodeId): World
      requires SourceUndoReady(w, ns)
    {
      var w1 := OutputLinkMoved(w, ns, 1);
      var w2 := if w1.connection.lineStyle.flow then SourceMovedBack(w1, ns)
                else WithMetaName(w1, w1.components[oldSource].uniqueName);
      Reconnected(w2, oldSource, oldTarget, oldLineStyle)
    }

    predicate TargetUndoReady(w: World, nt: NodeId, style: LineStyle)
    {
      Known(w, oldTarget) && oldLineStyle in w.inputLinks[oldTarget] &&
      Known(w, nt) && style in w.inputLinks[nt] && ChangesIn(w.changes, w.schemaTables)
    }

    /** Undo's target branch, the new target being `nt` and the new connection type `style`. */
    function TargetUndone(w: World, nt: NodeId, style: LineStyle): World
      requires TargetUndoReady(w, nt, style)
    {
      var w1 := w.(inputLinks := Bump(Bump(w.inputLinks, oldTarget, oldLineStyle, 1), nt, style, -1));
      var w2 := if w.newTargetSchemaType.Some? then
                  w1.(schemaTables := Restored(w1.schemaTables, w.changes),
                      schemaTypes := w1.schemaTypes[nt := w.newTargetSchemaType])
                else w1;
      Reconnected(w2, oldSource, oldTarget, oldLineStyle)
    }

    /** Undo, from world `w` with the command's pending ends and new connection type. */
    function Undone(w: World, ns: Option<NodeId>, nt: Option<NodeId>, style: LineStyle): World
      requires ns.Some? ==> SourceUndoReady(w, ns.value)
      requires ns.None? && nt.Some? ==> TargetUndoReady(w, nt.value, style)
    {
      if ns.Some? then SourceUndone(w, ns.value)
      else if nt.Some? then TargetUndone(w, nt.value, style)
      else Reconnected(w, oldSource, oldTarget, oldLineStyle)
    }

    /** Undoes every recorded metadata change, in the order recorded. */
    method UndoMetadataChanges()
      requires ChangesIn(metadataChanges, process.schemaTables)
      modifies process`schemaTables
      ensures process.schemaTables == Restored(old(process.schemaTables), metadataChanges)
    {
      for i := 0 to |metadataChanges|
        invariant process.schemaTables == Restored(old(process.schemaTables), metadataChanges[..i])
      {
        var cmd := metadataChanges[i];
        assert metadataChanges[..i + 1][..i] == metadataChanges[..i];
        process.schemaTables := process.schemaTables[cmd.node := cmd.previous];
      }
      assert metadataChanges[..|metadataChanges|] == metadataChanges;
    }

    /** The steps of undo's source branch that move tables back between the metadata lists. */
    method MoveTablesOnUndo(ns: NodeId)
      requires SourceUndoReady(Current(), ns) && process.connection.lineStyle.flow
      modifies process`metadataLists, process`connection
      ensures Current() == TablesMovedBack(old(Current()), ns)
    {
      var builtInNewSource := connectorName in process.components[ns].multiSchema;
      var builtInOldSource := connectorName in process.components[oldSource].multiSchema;
      if !builtInNewSource && !builtInOldSource {
        process.connection := process.connection.(metaName := process.components[oldSource].uniqueName);
      } else {
        var omt := oldMetadataTable.value;
        if !builtInNewSource {
          process.metadataLists := process.metadataLists[oldSource := process.metadataLists[oldSource] + [omt]];
          process.connection := process.connection.(metaName := omt.tableName);
        }
        if !builtInOldSource {
          var list := process.metadataLists[ns];
          var num := FindLastMatch(list, process.connection.uniqueName);
          LastMatchIndexIsLast(list, process.connection.uniqueName);
          process.metadataLists := process.metadataLists[ns := RemoveAt(list, num)];
          process.connection := process.connection.(metaName := process.components[oldSource].uniqueName);
        }
        if builtInOldSource && builtInNewSource {
          var list := process.metadataLists[ns];
          var num := FindLastMatch(list, omt.tableName);
          LastMatchIndexIsLast(list, omt.tableName);
          process.metadataLists := process.metadataLists[ns := RemoveAt(list, num)];
          process.metadataLists := process.metadataLists[oldSource := process.metadataLists[oldSource] + [omt]];
        }
      }
    }

    method RestoreSourceSchema(ns: NodeId)
      requires ns in process.schemaTypes && oldSource in process.schemaTypes
      requires ChangesIn(metadataChanges, process.schemaTables)
      modifies process`schemaTables, process`schemaTypes
      ensures Current() == SourceSchemaRestored(old(Current()), ns)
    {
      if newSourceSchemaType.Some? {
        UndoMetadataChanges();
        process.schemaTypes := process.schemaTypes[ns := newSourceSchemaType];
      }
      if oldSourceSchemaType.Some? {
        process.schemaTypes := process.schemaTypes[oldSource := oldSourceSchemaType];
      }
    }

    method UndoSource(ns: NodeId)
      requires SourceUndoReady(Current(), ns)
      modifies process
      ensures Current() == SourceUndone(old(Current()), ns)
    {
      process.outputLinks := Bump(process.outputLinks, oldSource, connectorName, 1);
      process.outputLinks := Bump(process.outputLinks, ns, connectorName, -1);
      if process.connection.lineStyle.flow {
        MoveTablesOnUndo(ns);
        RestoreSourceSchema(ns);
      } else {
        process.connection := process.connection.(metaName := process.components[oldSource].uniqueName);
      }
      process.connection := process.connection.(source := oldSource, target := oldTarget, lineStyle := oldLineStyle);
    }

    method UndoTarget(nt: NodeId)
      requires TargetUndoReady(Current(), nt, newLineStyle)
      modifies process
      ensures Current() == TargetUndone(old(Current()), nt, newLineStyle)
    {
      process.inputLinks := Bump(process.inputLinks, oldTarget, oldLineStyle, 1);
      process.inputLinks := Bump(process.inputLinks, nt, newLineStyle, -1);
      if newTargetSchemaType.Some? {
        UndoMetadataChanges();
        process.schemaTypes := process.schemaTypes[nt := newTargetSchemaType];
      }
      process.connection := process.connection.(source := oldSource, target := oldTarget, lineStyle := oldLineStyle);
    }

    /** undo: each branch reverses execute's, and the connection returns to its old ends and type. */
    method Undo()
      requires newSource.Some? ==> SourceUndoReady(Current(), newSource.value)
      requires newSource.None? && newTarget.Some? ==> TargetUndoReady(Current(), newTarget.value, newLineStyle)
      modifies process
      ensures Current() == Undone(old(Current()), newSource, newTarget, newLineStyle)
    {
      if newSource.Some? {
        UndoSource(newSource.value);
      } else if newTarget.Some? {
        UndoTarget(newTarget.value);
      } else {
        process.connection := process.connection.(source := oldSource, target := oldTarget, lineStyle := oldLineStyle);
      }
    }

    // Properties of execute and undo.

    /** Execute on a target reconnect moves one input link of the old type to the new target and type. */
    lemma TargetExecuteCounts(w: World, nt: NodeId, style: LineStyle, answer: bool)
      requires TargetReady(w, nt, style)
      ensures var w1 := Executed(w, None, Some(nt), style, answer);
        var same := if nt == oldTarget && style == oldLineStyle then 1 else 0;
        w1.inputLinks[oldTarget][oldLineStyle] == w.inputLinks[oldTarget][oldLineStyle] - 1 + same &&
        w1.inputLinks[nt][style] == w.inputLinks[nt][style] + 1 - same &&
        w1.outputLinks == w.outputLinks && w1.metadataLists == w.metadataLists &&
        w1.connection == w.connection.(source := oldSource, target := nt, lineStyle := style)
    {
    }

    /**
     * A target whose schema type is REPOSITORY gets no propagation; when
     * the table is propagated, the target's schema type becomes BUILT_IN and
     * the change that did it is the only one recorded.
     */
    lemma TargetPropagation(w: World, nt: NodeId, style: LineStyle, answer: bool)
      requires TargetReady(w, nt, style)
      ensures var w1 := Executed(w, None, Some(nt), style, answer);
        var tt := w.schemaTables[nt];
        w1.newTargetSchemaType == w.schemaTypes[nt] &&
        (w.schemaTypes[nt] == Some(Repository) ==>
           w1.changes == [] && w1.schemaTypes == w.schemaTypes && w1.schemaTables == w.schemaTables) &&
        (w1.changes != [] <==> w.schemaTypes[nt].Some? && style.data && style.name != FlowRefName &&
                               oldMetadataTable.Some? && tt.Some? &&
                               !SameMetadata(oldMetadataTable.value, tt.value) &&
                               w.components[nt].schemaAutoPropagated && w.schemaTypes[nt] != Some(Repository) &&
                               (tt.value.columns == [] || answer)) &&
        (w1.changes == [] ==> w1.schemaTypes == w.schemaTypes && w1.schemaTables == w.schemaTables) &&
        (w1.changes != [] ==>
           w1.changes == [MetadataChange(nt, tt)] &&
           w1.schemaTypes == w.schemaTypes[nt := Some(BuiltIn)] &&
           w1.schemaTables == w.schemaTables[nt := oldMetadataTable])
    {
    }

    /** Execute then undo of a target reconnect gives back every component and the connection. */
    lemma TargetRoundTrip(w: World, nt: NodeId, style: LineStyle, answer: bool)
      requires TargetReady(w, nt, style)
      requires w.connection.source == oldSource && w.connection.target == oldTarget
      requires w.connection.lineStyle == oldLineStyle
      ensures TargetUndoReady(Executed(w, None, Some(nt), style, answer), nt, style)
      ensures var w2 := Undone(Executed(w, None, Some(nt), style, answer), None, Some(nt), style);
        w2.components == w.components && w2.outputLinks == w.outputLinks && w2.inputLinks == w.inputLinks &&
        w2.metadataLists == w.metadataLists && w2.schemaTables == w.schemaTables &&
        w2.schemaTypes == w.schemaTypes && w2.connection == w.connection
    {
      var ex := Executed(w, None, Some(nt), style, answer);
      TargetExecutedShape(w, nt, style, answer);
      TargetPropagation(w, nt, style, answer);
      TargetUndoneShape(ex, nt, style);
      BumpsRoundTrip(w.inputLinks, oldTarget, oldLineStyle, nt, style);
      if ex.changes != [] {
        RestoredOne(w.schemaTables, nt, oldMetadataTable);
      }
    }

    /** Execute's target branch changes the input counters, the connection and the propagation fields only. */
    lemma TargetExecutedShape(w: World, nt: NodeId, style: LineStyle, answer: bool)
      requires TargetReady(w, nt, style)
      ensures var ex := Executed(w, None, Some(nt), style, answer);
        ex == w.(inputLinks := Bump(Bump(w.inputLinks, oldTarget, oldLineStyle, -1), nt, style, 1),
                 connection := w.connection.(source := oldSource, target := nt, lineStyle := style),
                 newTargetSchemaType := w.schemaTypes[nt],
                 changes := ex.changes, schemaTables := ex.schemaTables, schemaTypes := ex.schemaTypes)
    {
    }

    /** Undo's target branch changes the input counters, the connection and the schema fields only. */
    lemma TargetUndoneShape(u: World, nt: NodeId, style: LineStyle)
      requires TargetUndoReady(u, nt, style)
      ensures Undone(u, None, Some(nt), style) ==
        u.(inputLinks := Bump(Bump(u.inputLinks, oldTarget, oldLineStyle, 1), nt, style, -1),
           connection := u.connection.(source := oldSource, target := oldTarget, lineStyle := oldLineStyle),
           schemaTables := if u.newTargetSchemaType.Some? then Restored(u.schemaTables, u.changes) else u.schemaTables,
           schemaTypes := if u.newTargetSchemaType.Some? then u.schemaTypes[nt := u.newTargetSchemaType]
                          else u.schemaTypes)
    {
    }

    /**
     * Execute on a source reconnect moves one output link of the connector
     * to the new source, reattaches the connection, and leaves the input
     * counters and schema types alone; the meta name becomes the new
     * source's name, except for a FLOW connection whose new source is
     * multi-schema: then the connection's own name when only the new source
     * is, and unchanged when both are.
     */
    lemma SourceExecuteCounts(w: World, ns: NodeId, style: LineStyle, answer: bool)
      requires SourceReady(w, ns)
      ensures var w1 := Executed(w, Some(ns), None, style, answer);
        var same := if ns == oldSource then 1 else 0;
        var flow := w.connection.lineStyle.flow;
        var links := Bump(Bump(w.outputLinks, oldSource, connectorName, -1), ns, connectorName, 1);
        w1.outputLinks == links && links.Keys == w.outputLinks.Keys &&
        links[oldSource][connectorName] == w.outputLinks[oldSource][connectorName] - 1 + same &&
        links[ns][connectorName] == w.outputLinks[ns][connectorName] + 1 - same &&
        (forall id | id in links && id != oldSource && id != ns :: links[id] == w.outputLinks[id]) &&
        w1.inputLinks == w.inputLinks && w1.schemaTypes == w.schemaTypes && w1.components == w.components &&
        w1.connection == w.connection.(source := ns, target := oldTarget, lineStyle := style,
          metaName := if flow && MultiSchema(w, ns) && MultiSchema(w, oldSource) then w.connection.metaName
                      else if flow && MultiSchema(w, ns) then w.connection.uniqueName
                      else w.components[ns].uniqueName)
    {
      SourceExecutedShape(w, ns, style, answer);
    }

    /** Execute's source branch changes the counters, the lists, the connection and the propagation fields only. */
    lemma SourceExecutedShape(w: World, ns: NodeId, style: LineStyle, answer: bool)
      requires SourceReady(w, ns)
      ensures var w1 := Executed(w, Some(ns), None, style, answer);
        var flow := w.connection.lineStyle.flow;
        w1 == w.(outputLinks := Bump(Bump(w.outputLinks, oldSource, connectorName, -1), ns, connectorName, 1),
                 metadataLists := if flow then SourceMoved(OutputLinkMoved(w.(changes := []), ns, -1), ns).metadataLists
                                  else w.metadataLists,
                 schemaTables := w1.schemaTables, changes := w1.changes,
                 newSourceSchemaType := if flow then w.schemaTypes[ns] else w.newSourceSchemaType,
                 connection := w.connection.(source := ns, target := oldTarget, lineStyle := style,
                   metaName := if flow && MultiSchema(w, ns) && MultiSchema(w, oldSource) then w.connection.metaName
                               else if flow && MultiSchema(w, ns) then w.connection.uniqueName
                               else w.components[ns].uniqueName))
    {
      var w1 := OutputLinkMoved(w.(changes := []), ns, -1);
      assert SourceReady(w1, ns);
      if w.connection.lineStyle.flow {
        SourceMovedShape(w1, ns);
      }
    }

    /** The table moves of execute's source branch change the lists, the meta name and the schema type read. */
    lemma SourceMovedShape(w: World, ns: NodeId)
      requires SourceReady(w, ns) && w.connection.lineStyle.flow
      ensures var r := SourceMoved(w, ns);
        r == w.(metadataLists := r.metadataLists, newSourceSchemaType := w.schemaTypes[ns],
                connection := w.connection.(
                  metaName := if MultiSchema(w, ns) && MultiSchema(w, oldSource) then w.connection.metaName
                              else if MultiSchema(w, ns) then w.connection.uniqueName
                              else w.components[ns].uniqueName))
    {
    }

    /**
     * The source branch of execute records at most one change: the old
     * target takes the new source's table exactly when the new source has a
     * schema type (read only for a FLOW connection), the new connection
     * type is DATA, both tables exist and differ, the old target propagates
     * schemas automatically, and the moved table is empty or the user
     * agrees.
     */
    lemma SourcePropagation(w: World, ns: NodeId, style: LineStyle, answer: bool)
      requires SourceReady(w, ns)
      ensures var w1 := Executed(w, Some(ns), None, style, answer);
        var st := w.schemaTables[ns];
        var schemaType := if w.connection.lineStyle.flow then w.schemaTypes[ns] else w.newSourceSchemaType;
        w1.newSourceSchemaType == schemaType &&
        (w1.changes != [] <==> schemaType.Some? && style.data && oldMetadataTable.Some? && st.Some? &&
                               !SameMetadata(oldMetadataTable.value, st.value) &&
                               w.components[oldTarget].schemaAutoPropagated &&
                               (oldMetadataTable.value.columns == [] || answer)) &&
        (w1.changes == [] ==> w1.schemaTables == w.schemaTables) &&
        (w1.changes != [] ==>
           w1.changes == [MetadataChange(oldTarget, w.schemaTables[oldTarget])] &&
           w1.schemaTables == w.schemaTables[oldTarget := st])
    {
      var w0 := w.(changes := []);
      var w1 := w0.(outputLinks := Bump(Bump(w0.outputLinks, oldSource, connectorName, -1), ns, connectorName, 1));
      assert SourceReady(w1, ns);
      if w.connection.lineStyle.flow {
        SourceMovedShape(w1, ns);
      }
      var w2 := if w1.connection.lineStyle.flow then SourceMoved(w1, ns)
                else WithMetaName(w1, w1.components[ns].uniqueName);
      var w3 := Reconnected(w2, ns, oldTarget, style);
      assert w3.schemaTables == w.schemaTables && w3.changes == [] && w3.components == w.components;
      assert w3.connection.lineStyle == style;
      assert Executed(w, Some(ns), None, style, answer) == SourcePropagated(w3, ns, answer);
    }

    /**
     * For a FLOW connection, the old source loses a table exactly when its
     * connector is multi-schema (the last one named like the connection's
     * table), and the new source gains one exactly when its connector is:
     * the connection's table itself when both are, a copy named after the
     * connection when only the new source is.  No other list changes.
     */
    lemma MultiSchemaMove(w: World, ns: NodeId, style: LineStyle, answer: bool)
      requires SourceReady(w, ns) && w.connection.lineStyle.flow && ns != oldSource
      ensures var w1 := Executed(w, Some(ns), None, style, answer);
        var bNew := MultiSchema(w, ns);
        var bOld := MultiSchema(w, oldSource);
        var m := w.metadataLists[oldSource];
        var n := w.metadataLists[ns];
        (forall id | id != ns && id != oldSource :: id in w1.metadataLists <==> id in w.metadataLists) &&
        (forall id | id in w.metadataLists && id != ns && id != oldSource ::
           w1.metadataLists[id] == w.metadataLists[id]) &&
        (bOld ==> var k := LastMatchIndex(m, oldMetadataTable.value.tableName);
                  k < |m| && w1.metadataLists[oldSource] == RemoveAt(m, k)) &&
        (!bOld ==> w1.metadataLists[oldSource] == m) &&
        (bNew && bOld ==> w1.metadataLists[ns] == n + [oldMetadataTable.value]) &&
        (bNew && !bOld ==>
           w1.metadataLists[ns] == n + [oldMetadataTable.value.(tableName := w.connection.uniqueName)]) &&
        (!bNew ==> w1.metadataLists[ns] == n)
    {
      var w0 := w.(changes := []);
      var w1 := w0.(outputLinks := Bump(Bump(w0.outputLinks, oldSource, connectorName, -1), ns, connectorName, 1));
      assert Executed(w, Some(ns), None, style, answer).metadataLists == SourceMoved(w1, ns).metadataLists;
      TablesMoved(w1, ns);
    }

    /** MultiSchemaMove, on the table moves alone. */
    lemma TablesMoved(w: World, ns: NodeId)
      requires SourceReady(w, ns) && w.connection.lineStyle.flow && ns != oldSource
      ensures var lists := SourceMoved(w, ns).metadataLists;
        var bNew := MultiSchema(w, ns);
        var bOld := MultiSchema(w, oldSource);
        var m := w.metadataLists[oldSource];
        var n := w.metadataLists[ns];
        (bOld || bNew ==> lists == w.metadataLists[oldSource := lists[oldSource]][ns := lists[ns]]) &&
        (!bOld && !bNew ==> lists == w.metadataLists) &&
        (bOld ==> var k := LastMatchIndex(m, oldMetadataTable.value.tableName);
                  k < |m| && lists[oldSource] == RemoveAt(m, k)) &&
        (!bOld ==> lists[oldSource] == m) &&
        (bNew && bOld ==> lists[ns] == n + [oldMetadataTable.value]) &&
        (bNew && !bOld ==> lists[ns] == n + [oldMetadataTable.value.(tableName := w.connection.uniqueName)]) &&
        (!bNew ==> lists[ns] == n)
    {
      if MultiSchema(w, oldSource) {
        LastMatchIndexIsLast(w.metadataLists[oldSource], oldMetadataTable.value.tableName);
      }
    }

    /**
     * The lists a FLOW reconnect of the source leaves after execute and
     * undo: the old source's, when multi-schema, has lost its last table
     * named like the connection's table and gained that table at its end;
     * every other list is as before.
     */
    function ListsAfterRoundTrip(w: World): map<NodeId, seq<Table>>
      requires oldSource in w.metadataLists
      requires w.connection.lineStyle.flow && MultiSchema(w, oldSource) ==>
                 oldMetadataTable.Some? && |w.metadataLists[oldSource]| > 0
    {
      if w.connection.lineStyle.flow && MultiSchema(w, oldSource) then
        var m := w.metadataLists[oldSource];
        LastMatchIndexIsLast(m, oldMetadataTable.value.tableName);
        w.metadataLists[oldSource := RemoveAt(m, LastMatchIndex(m, oldMetadataTable.value.tableName)) +
                                     [oldMetadataTable.value]]
      else w.metadataLists
    }

    /** Execute's table moves keep every list, and leave one at least on a multi-schema new source. */
    lemma SourceMovedLists(w: World, ns: NodeId)
      requires SourceReady(w, ns) && w.connection.lineStyle.flow
      ensures SourceMoved(w, ns).metadataLists.Keys == w.metadataLists.Keys
      ensures MultiSchema(w, ns) ==> |SourceMoved(w, ns).metadataLists[ns]| > 0
    {
    }

    /** The table moves of undo's source branch take back those of execute. */
    lemma TablesRoundTrip(w: World, ns: NodeId, u: World)
      requires SourceReady(w, ns) && w.connection.lineStyle.flow
      requires u.components == w.components && u.connection.uniqueName == w.connection.uniqueName
      requires u.connection.lineStyle.flow && u.metadataLists == SourceMoved(w, ns).metadataLists
      requires SourceUndoReady(u, ns)
      ensures TablesMovedBack(u, ns) == u.(metadataLists := ListsAfterRoundTrip(w),
        connection := u.connection.(metaName :=
          if MultiSchema(w, ns) && MultiSchema(w, oldSource) then u.connection.metaName
          else if MultiSchema(w, oldSource) then oldMetadataTable.value.tableName
          else w.components[oldSource].uniqueName))
    {
      var bNew := MultiSchema(w, ns);
      var bOld := MultiSchema(w, oldSource);
      if bNew && bOld {
        BothRoundTrip(w, ns, u);
      } else if bOld {
        OldOnlyRoundTrip(w, ns, u);
      } else if bNew {
        NewOnlyRoundTrip(w, ns, u);
      }
    }

    /** TablesRoundTrip when both connectors are multi-schema. */
    lemma BothRoundTrip(w: World, ns: NodeId, u: World)
      requires SourceReady(w, ns) && w.connection.lineStyle.flow
      requires MultiSchema(w, ns) && MultiSchema(w, oldSource)
      requires u.components == w.components && u.connection.lineStyle.flow
      requires u.metadataLists == SourceMoved(w, ns).metadataLists && SourceUndoReady(u, ns)
      ensures TablesMovedBack(u, ns) == u.(metadataLists := ListsAfterRoundTrip(w))
    {
      var omt := oldMetadataTable.value;
      var m := w.metadataLists[oldSource];
      LastMatchIndexIsLast(m, omt.tableName);
      var k := LastMatchIndex(m, omt.tableName);
      var removed := w.metadataLists[oldSource := RemoveAt(m, k)];
      assert u.metadataLists == removed[ns := removed[ns] + [omt]];
      RemoveAppended(removed[ns], omt);
    }

    /** TablesRoundTrip when only the old source's connector is multi-schema. */
    lemma OldOnlyRoundTrip(w: World, ns: NodeId, u: World)
      requires SourceReady(w, ns) && w.connection.lineStyle.flow
      requires !MultiSchema(w, ns) && MultiSchema(w, oldSource)
      requires u.components == w.components && u.connection.lineStyle.flow
      requires u.metadataLists == SourceMoved(w, ns).metadataLists && SourceUndoReady(u, ns)
      ensures TablesMovedBack(u, ns) == u.(metadataLists := ListsAfterRoundTrip(w),
        connection := u.connection.(metaName := oldMetadataTable.value.tableName))
    {
      var omt := oldMetadataTable.value;
      var m := w.metadataLists[oldSource];
      LastMatchIndexIsLast(m, omt.tableName);
      var k := LastMatchIndex(m, omt.tableName);
      assert u.metadataLists == w.metadataLists[oldSource := RemoveAt(m, k)];
    }

    /** TablesRoundTrip when only the new source's connector is multi-schema. */
    lemma NewOnlyRoundTrip(w: World, ns: NodeId, u: World)
      requires SourceReady(w, ns) && w.connection.lineStyle.flow
      requires MultiSchema(w, ns) && !MultiSchema(w, oldSource)
      requires u.components == w.components && u.connection.uniqueName == w.connection.uniqueName
      requires u.connection.lineStyle.flow
      requires u.metadataLists == SourceMoved(w, ns).metadataLists && SourceUndoReady(u, ns)
      ensures TablesMovedBack(u, ns) == u.(metadataLists := ListsAfterRoundTrip(w),
        connection := u.connection.(metaName := w.components[oldSource].uniqueName))
    {
      var copy := oldMetadataTable.value.(tableName := w.connection.uniqueName);
      var n := w.metadataLists[ns];
      assert u.metadataLists == w.metadataLists[ns := n + [copy]];
      RemoveAppended(n, copy);
      assert w.metadataLists[ns := n + [copy]][ns := n] == w.metadataLists;
    }

    /**
     * Execute then undo of a FLOW or other reconnect of the source, for a
     * command whose connection type keeps its FLOW category: the link
     * counters, schema tables and schema types come back, the connection
     * returns to its old ends and type, and the metadata lists are as
     * ListsAfterRoundTrip says. The meta name is the one the last step of
     * the two calls wrote: kept when both ends are multi-schema, the old
     * table's name when only the old source is, the old source's unique
     * name otherwise.
     */
    lemma SourceRoundTrip(w: World, ns: NodeId, style: LineStyle, answer: bool)
      requires SourceReady(w, ns)
      requires w.connection.source == oldSource && w.connection.target == oldTarget
      requires w.connection.lineStyle == oldLineStyle && style.flow == oldLineStyle.flow
      requires oldSourceSchemaType == w.schemaTypes[oldSource]
      requires w.connection.lineStyle.flow || w.newSourceSchemaType.None?
      ensures SourceUndoReady(Executed(w, Some(ns), None, style, answer), ns)
      ensures var w2 := Undone(Executed(w, Some(ns), None, style, answer), Some(ns), None, style);
        var flow := w.connection.lineStyle.flow;
        var bNew := MultiSchema(w, ns);
        var bOld := MultiSchema(w, oldSource);
        w2.components == w.components && w2.outputLinks == w.outputLinks && w2.inputLinks == w.inputLinks &&
        w2.schemaTables == w.schemaTables && w2.schemaTypes == w.schemaTypes &&
        w2.metadataLists == ListsAfterRoundTrip(w) &&
        w2.connection == w.connection.(metaName :=
          if flow && bNew && bOld then w.connection.metaName
          else if flow && bOld then oldMetadataTable.value.tableName
          else w.components[oldSource].uniqueName)
    {
      SourceRoundTripTables(w, ns, style, answer);
      SourceRoundTripTypes(w, ns, style, answer);
      SourceRoundTripLinks(w, ns, style, answer);
    }

    /** SourceRoundTrip, for undo's precondition and execute's shape. */
    lemma SourceRoundTripStart(w: World, ns: NodeId, style: LineStyle, answer: bool)
      requires SourceReady(w, ns)
      requires w.connection.source == oldSource && w.connection.target == oldTarget
      requires w.connection.lineStyle == oldLineStyle && style.flow == oldLineStyle.flow
      requires oldSourceSchemaType == w.schemaTypes[oldSource]
      requires w.connection.lineStyle.flow || w.newSourceSchemaType.None?
      ensures SourceUndoReady(Executed(w, Some(ns), None, style, answer), ns)
      ensures var ex := Executed(w, Some(ns), None, style, answer);
        ex.connection.lineStyle == style && ex.components == w.components &&
        ex.connection.uniqueName == w.connection.uniqueName &&
        ex.outputLinks == OutputLinkMoved(w, ns, -1).outputLinks && ex.schemaTypes == w.schemaTypes &&
        (ex.changes == [] ==> ex.schemaTables == w.schemaTables) &&
        (ex.changes != [] ==>
           ex.newSourceSchemaType.Some? &&
           ex.changes == [MetadataChange(oldTarget, w.schemaTables[oldTarget])] &&
           ex.schemaTables == w.schemaTables[oldTarget := w.schemaTables[ns]]) &&
        (w.connection.lineStyle.flow ==>
           ex.newSourceSchemaType == w.schemaTypes[ns] &&
           ex.metadataLists == SourceMoved(OutputLinkMoved(w.(changes := []), ns, -1), ns).metadataLists)
    {
      SourceExecutedShape(w, ns, style, answer);
      SourcePropagation(w, ns, style, answer);
      var w1 := OutputLinkMoved(w.(changes := []), ns, -1);
      assert SourceReady(w1, ns);
      if w.connection.lineStyle.flow {
        SourceMovedLists(w1, ns);
      }
    }

    /** SourceRoundTrip, for the schema tables. */
    lemma SourceRoundTripTables(w: World, ns: NodeId, style: LineStyle, answer: bool)
      requires SourceReady(w, ns)
      requires w.connection.source == oldSource && w.connection.target == oldTarget
      requires w.connection.lineStyle == oldLineStyle && style.flow == oldLineStyle.flow
      requires oldSourceSchemaType == w.schemaTypes[oldSource]
      requires w.connection.lineStyle.flow || w.newSourceSchemaType.None?
      ensures SourceUndoReady(Executed(w, Some(ns), None, style, answer), ns)
      ensures Undone(Executed(w, Some(ns), None, style, answer), Some(ns), None, style).schemaTables == w.schemaTables
    {
      var ex := Executed(w, Some(ns), None, style, answer);
      SourceRoundTripStart(w, ns, style, answer);
      SourceUndoneShape(ex, ns);
      if w.connection.lineStyle.flow && ex.changes != [] {
        RestoredOne(w.schemaTables, oldTarget, w.schemaTables[ns]);
      }
    }

    /** SourceRoundTrip, for the schema types. */
    lemma SourceRoundTripTypes(w: World, ns: NodeId, style: LineStyle, answer: bool)
      requires SourceReady(w, ns)
      requires w.connection.source == oldSource && w.connection.target == oldTarget
      requires w.connection.lineStyle == oldLineStyle && style.flow == oldLineStyle.flow
      requires oldSourceSchemaType == w.schemaTypes[oldSource]
      requires w.connection.lineStyle.flow || w.newSourceSchemaType.None?
      ensures SourceUndoReady(Executed(w, Some(ns), None, style, answer), ns)
      ensures Undone(Executed(w, Some(ns), None, style, answer), Some(ns), None, style).schemaTypes == w.schemaTypes
    {
      var ex := Executed(w, Some(ns), None, style, answer);
      SourceRoundTripStart(w, ns, style, answer);
      SourceUndoneShape(ex, ns);
      if w.connection.lineStyle.flow {
        var types := w.schemaTypes;
        UpdateSame(types, ns);
        UpdateSame(types, oldSource);
      }
    }

    /** SourceRoundTrip, for the counters, the lists and the connection. */
    lemma SourceRoundTripLinks(w: World, ns: NodeId, style: LineStyle, answer: bool)
      requires SourceReady(w, ns)
      requires w.connection.source == oldSource && w.connection.target == oldTarget
      requires w.connection.lineStyle == oldLineStyle && style.flow == oldLineStyle.flow
      requires oldSourceSchemaType == w.schemaTypes[oldSource]
      requires w.connection.lineStyle.flow || w.newSourceSchemaType.None?
      ensures SourceUndoReady(Executed(w, Some(ns), None, style, answer), ns)
      ensures var w2 := Undone(Executed(w, Some(ns), None, style, answer), Some(ns), None, style);
        var flow := w.connection.lineStyle.flow;
        var bNew := MultiSchema(w, ns);
        var bOld := MultiSchema(w, oldSource);
        w2.components == w.components && w2.outputLinks == w.outputLinks && w2.inputLinks == w.inputLinks &&
        w2.metadataLists == ListsAfterRoundTrip(w) &&
        w2.connection == w.connection.(metaName :=
          if flow && bNew && bOld then w.connection.metaName
          else if flow && bOld then oldMetadataTable.value.tableName
          else w.components[oldSource].uniqueName)
    {
      var ex := Executed(w, Some(ns), None, style, answer);
      SourceRoundTripStart(w, ns, style, answer);
      SourceExecutedShape(w, ns, style, answer);
      SourceUndoneShape(ex, ns);
      BumpsRoundTrip(w.outputLinks, oldSource, connectorName, ns, connectorName);
      if w.connection.lineStyle.flow {
        TablesRoundTrip(OutputLinkMoved(w.(changes := []), ns, -1), ns, OutputLinkMoved(ex, ns, 1));
      }
    }

    /** Undo's source branch, step by step. */
    lemma SourceUndoneShape(u: World, ns: NodeId)
      requires SourceUndoReady(u, ns)
      ensures var u1 := OutputLinkMoved(u, ns, 1);
        var t := if u.connection.lineStyle.flow then TablesMovedBack(u1, ns)
                 else WithMetaName(u1, u.components[oldSource].uniqueName);
        var restored := u.connection.lineStyle.flow && u.newSourceSchemaType.Some?;
        var types := if restored then u.schemaTypes[ns := u.newSourceSchemaType] else u.schemaTypes;
        Undone(u, Some(ns), None, u.connection.lineStyle) == t.(
          schemaTables := if restored then Restored(u.schemaTables, u.changes) else u.schemaTables,
          schemaTypes := if u.connection.lineStyle.flow && oldSourceSchemaType.Some?
                         then types[oldSource := oldSourceSchemaType] else types,
          connection := t.connection.(source := oldSource, target := oldTarget, lineStyle := oldLineStyle))
    {
      if u.connection.lineStyle.flow {
        TablesMovedBackShape(OutputLinkMoved(u, ns, 1), ns);
      }
    }

    /** The table moves of undo's source branch change the lists and the meta name only. */
    lemma TablesMovedBackShape(u: World, ns: NodeId)
      requires SourceUndoReady(u, ns) && u.connection.lineStyle.flow
      ensures var r := TablesMovedBack(u, ns);
        r == u.(metadataLists := r.metadataLists, connection := u.connection.(metaName := r.connection.metaName))
    {
    }
  }
}
