/** The generic table component (src/components/ui/data-table.tsx): how one cell
    finds its value by a dot-separated key, how the cell is rendered by default,
    which row actions are shown, and the shape of the table body. A rendered
    React node is the type parameter `N`; JavaScript values are `JValue`. */
module DataTable {
  import opened Wrappers
  import opened Strings

  /** The JavaScript values a row may hold (Dates and non-integer numbers are
      not modelled). */
  datatype JValue = Undefined | Null | JBool(b: bool) | JNum(n: int) | JStr(s: string)
                  | JObj(fields: map<string, JValue>)

  /** `value?.[key]`: an own field of an object; `undefined` for a missing field,
      for `null`/`undefined`, and for every other value. */
  function Step(v: JValue, key: string): (r: JValue)
    ensures v.JObj? && key in v.fields ==> r == v.fields[key]
    ensures !(v.JObj? && key in v.fields) ==> r == Undefined
  {
    match v
    case JObj(m) => if key in m then m[key] else Undefined
    case _ => Undefined
  }

  /** The lookup loop, with its `break` at the first `undefined`. */
  function Walk(v: JValue, keys: seq<string>): JValue
    decreases |keys|
  {
    if |keys| == 0 then v
    else
      var next := Step(v, keys[0]);
      if next == Undefined then Undefined else Walk(next, keys[1..])
  }

  /** The same walk without the `break`: every segment is applied. */
  function StepAll(v: JValue, keys: seq<string>): JValue
    decreases |keys|
  {
    if |keys| == 0 then v else StepAll(Step(v, keys[0]), keys[1..])
  }

  lemma {:induction false} StepAllUndefined(keys: seq<string>)
    ensures StepAll(Undefined, keys) == Undefined
  {
    if |keys| > 0 { StepAllUndefined(keys[1..]); }
  }

  /** The `break` only saves work: stopping at the first `undefined` gives what
      applying every segment gives. */
  lemma {:induction false} BreakIsHarmless(v: JValue, keys: seq<string>)
    ensures Walk(v, keys) == StepAll(v, keys)
  {
    if |keys| > 0 {
      var next := Step(v, keys[0]);
      if next == Undefined {
        StepAllUndefined(keys[1..]);
      } else {
        BreakIsHarmless(next, keys[1..]);
      }
    }
  }

  /** The value a column's cell shows before rendering: none (`null`) for the
      "actions" column, otherwise the walk along the key's dot-separated segments. */
  function CellValue(key: string, row: JValue): JValue {
    if key == "actions" then Null else Walk(row, Split(key, '.'))
  }

  /** The lookup in `renderCellValue`: split the key on ".", then follow one
      segment at a time, stopping at the first `undefined`. */
  method LookupPath(row: JValue, key: string) returns (value: JValue)
    ensures value == CellValue(key, row)
  {
    value := Null;
    if key != "actions" {
      var keys := Split(key, '.');
      value := row;
      var i := 0;
      while i < |keys|
        invariant 0 <= i <= |keys|
        invariant Walk(value, keys[i..]) == Walk(row, keys)
      {
        assert keys[i..][1..] == keys[i + 1..];
        value := Step(value, keys[i]);
        if value == Undefined {
          break;
        }
        i := i + 1;
      }
    }
  }

  /** A key with no "." (other than "actions") is plain field access. */
  lemma SingleSegmentIsFieldAccess(key: string, row: JValue)
    requires key != "actions" && '.' !in key
    ensures CellValue(key, row) == Step(row, key)
  {
    SplitNoSeparator(key, '.');
    var next := Step(row, key);
    assert [key][1..] == [];
    assert Walk(row, [key]) == if next == Undefined then Undefined else Walk(next, []);
  }

  /** A two-segment key reads a field of a field, and a missing first field makes
      the whole lookup `undefined`. */
  lemma NestedLookup(outer: string, inner: string, row: JValue)
    requires '.' !in outer && '.' !in inner
    ensures var key := outer + "." + inner;
      key != "actions" &&
      CellValue(key, row) == (if Step(row, outer) == Undefined then Undefined else Step(Step(row, outer), inner))
  {
    var key := outer + "." + inner;
    assert key[|outer|] == '.';
    SplitNoSeparator(inner, '.');
    SplitAround(outer, inner);
    var keys := Split(key, '.');
    assert keys == [outer, inner] && keys[1..] == [inner] && [inner][1..] == [];
    var first := Step(row, outer);
    assert Walk(row, keys) == if first == Undefined then Undefined else Walk(first, [inner]);
    var second := Step(first, inner);
    assert Walk(first, [inner]) == if second == Undefined then Undefined else Walk(second, []);
  }

  lemma {:induction false} SplitAround(outer: string, inner: string)
    requires '.' !in outer
    ensures Split(outer + "." + inner, '.') == [outer] + Split(inner, '.')
  {
    if |outer| == 0 {
      assert outer + "." + inner == ['.'] + inner;
      assert (['.'] + inner)[1..] == inner;
    } else {
      assert '.' !in outer[1..] by {
        forall k | 0 <= k < |outer[1..]| ensures outer[1..][k] != '.' { assert outer[1..][k] == outer[k + 1]; }
      }
      SplitAround(outer[1..], inner);
      assert (outer + "." + inner)[1..] == outer[1..] + "." + inner;
      assert [outer[0]] + outer[1..] == outer;
    }
  }

  // ---- rendering ----

  datatype Column<N> = Column(key: string, header: string, render: Option<(JValue, JValue) -> N>)

  /** What a cell shows. */
  datatype Cell<N> = Custom(node: N) | Badge(variant: string, text: string) | Link(href: string) | Text(text: string)

  /** `value?.toString() || ""`. */
  function ToText(v: JValue): string {
    match v
    case Undefined => ""
    case Null => ""
    case JBool(b) => if b then "true" else "false"
    case JNum(n) => IntToString(n)
    case JStr(s) => s
    case JObj(_) => "[object Object]"
  }

  /** The default renderers: booleans as a Yes/No badge, strings starting with
      "http" as a link, anything else as its text. */
  function DefaultRender<N>(v: JValue): Cell<N> {
    if v.JBool? then Badge(if v.b then "default" else "secondary", if v.b then "Yes" else "No")
    else if v.JStr? && StartsWith(v.s, "http") then Link(v.s)
    else Text(ToText(v))
  }

  /** The renderer choice of `renderCellValue`. */
  function Render<N>(col: Column<N>, value: JValue, row: JValue): Cell<N> {
    if col.render.Some? then Custom(col.render.value(value, row)) else DefaultRender(value)
  }

  /** `renderCellValue(column, row)`. */
  method RenderCellValue<N>(col: Column<N>, row: JValue) returns (cell: Cell<N>)
    ensures cell == Render(col, CellValue(col.key, row), row)
  {
    var value := LookupPath(row, col.key);
    if col.render.Some? {
      return Custom(col.render.value(value, row));
    }
    return DefaultRender(value);
  }

  /** A custom `render` always wins and receives the looked-up value and the row;
      without one, booleans render Yes/No, "http…" strings as links, and null or
      undefined as the empty text. */
  lemma RenderChoice<N>(col: Column<N>, value: JValue, row: JValue)
    ensures col.render.Some? ==> Render(col, value, row) == Custom(col.render.value(value, row))
    ensures col.render.None? && value.JBool? ==>
      Render(col, value, row).Badge? && Render(col, value, row).text == (if value.b then "Yes" else "No")
    ensures col.render.None? && value.JStr? && StartsWith(value.s, "http") ==> Render(col, value, row) == Link(value.s)
    ensures col.render.None? && value.JStr? && !StartsWith(value.s, "http") ==> Render(col, value, row) == Text(value.s)
    ensures col.render.None? && (value.Null? || value.Undefined?) ==> Render(col, value, row) == Text("")
  {
  }

  /** The "actions" column without a custom renderer shows nothing. */
  lemma ActionsColumnIsBlank<N>(col: Column<N>, row: JValue)
    requires col.key == "actions" && col.render.None?
    ensures Render(col, CellValue(col.key, row), row) == Text("")
  {
  }

  // ---- row actions ----

  datatype Action = Action(title: string, show: Option<JValue -> bool>)

  predicate Shown(a: Action, row: JValue) {
    a.show.None? || a.show.value(row)
  }

  /** `actions.filter(action => !action.show || action.show(row))`. */
  function VisibleActions(actions: seq<Action>, row: JValue): seq<Action> {
    if |actions| == 0 then []
    else (if Shown(actions[0], row) then [actions[0]] else []) + VisibleActions(actions[1..], row)
  }

  /** An action is shown for a row exactly when it has no `show` or `show(row)` holds ... */
  lemma {:induction false} VisibleActionsMembers(actions: seq<Action>, row: JValue)
    ensures |VisibleActions(actions, row)| <= |actions|
    ensures forall a :: a in VisibleActions(actions, row) <==> a in actions && Shown(a, row)
  {
    if |actions| > 0 {
      VisibleActionsMembers(actions[1..], row);
      assert actions == [actions[0]] + actions[1..];
    }
  }

  /** ... and the original order is kept. */
  lemma {:induction false} VisibleActionsConcat(a: seq<Action>, b: seq<Action>, row: JValue)
    ensures VisibleActions(a + b, row) == VisibleActions(a, row) + VisibleActions(b, row)
  {
    if |a| > 0 {
      assert (a + b)[1..] == a[1..] + b;
      VisibleActionsConcat(a[1..], b, row);
    } else {
      assert a + b == b;
    }
  }

  // ---- the table body ----

  datatype DataRow<N> = DataRow(cells: seq<Cell<N>>, actions: Option<seq<Action>>)

  datatype Body<N> =
    | Skeleton(placeholderRows: nat, cellsPerRow: nat)      // placeholders while loading
    | EmptyRow(colSpan: nat, message: string)    // one cell spanning the table
    | Rows(dataRows: seq<DataRow<N>>)

  function RowCells<N>(columns: seq<Column<N>>, row: JValue): seq<Cell<N>> {
    seq(|columns|, i requires 0 <= i < |columns| => Render(columns[i], CellValue(columns[i].key, row), row))
  }

  /** Which body `DataTable` renders; `emptyMessage` defaults to "No data found". */
  function TableBody<N>(data: seq<JValue>, columns: seq<Column<N>>, actions: seq<Action>,
                        loading: bool, emptyMessage: Option<string>): Body<N> {
    var extra := if |actions| > 0 then 1 else 0;
    if loading then Skeleton(5, |columns| + extra)
    else if |data| == 0 then EmptyRow(|columns| + extra, emptyMessage.GetOr("No data found"))
    else Rows(seq(|data|, i requires 0 <= i < |data| =>
                DataRow(RowCells(columns, data[i]),
                        if |actions| > 0 then Some(VisibleActions(actions, data[i])) else None)))
  }

  /** Loading wins over everything: 5 placeholder rows. An empty table is one
      cell spanning the columns plus the actions column when there are actions.
      Otherwise one row per record, one cell per column, and an actions cell
      exactly when there are actions. */
  lemma TableBodySpec<N>(data: seq<JValue>, columns: seq<Column<N>>, actions: seq<Action>,
                         loading: bool, emptyMessage: Option<string>)
    ensures var b := TableBody(data, columns, actions, loading, emptyMessage);
      && (loading ==> b == Skeleton(5, |columns| + (if |actions| > 0 then 1 else 0)))
      && (!loading && |data| == 0 ==>
            b == EmptyRow(|columns| + (if |actions| > 0 then 1 else 0), emptyMessage.GetOr("No data found")))
      && (!loading && |data| > 0 ==>
            b.Rows? && |b.dataRows| == |data| &&
            forall i :: 0 <= i < |data| ==>
              |b.dataRows[i].cells| == |columns| && (b.dataRows[i].actions.Some? <==> |actions| > 0))
  {
  }
}
