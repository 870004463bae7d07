/**
 * The response viewer: which views the payload admits, and what the raw,
 * table and cards views show. Layout, styling and the raw view's pretty
 * printer are presentation and are not modelled; the raw view is the whole
 * payload value.
 */
module ResponseViewer {
  import opened JsonValues
  import opened ApiClient

  datatype View = Raw | Table | Cards

  /** A viewer is created with the raw view selected. */
  const InitialView: View := Raw

  const MaxColumns: nat := 5
  const MaxRows: nat := 10
  const MaxCards: nat := 12
  const MaxCardFields: nat := 6

  function Min(a: nat, b: nat): nat {
    if a <= b then a else b
  }

  /** Array.isArray(data) && data.every(item => typeof item === 'object'). */
  predicate IsArrayOfObjects(data: Json) {
    data.JArray? && forall i :: 0 <= i < |data.items| ==> IsObjectType(data.items[i])
  }

  /** The stricter test a reader might expect: an array whose elements are
      all non-null objects. */
  ghost predicate IsRecordSequence(data: Json) {
    data.JArray? && forall i :: 0 <= i < |data.items| ==> data.items[i].JObject?
  }

  /** The views the view selector offers; without the selector only the raw
      view can be shown. */
  function LegalViews(data: Json): (r: set<View>)
    ensures Raw in r
    ensures Table in r <==> IsArrayOfObjects(data)
    ensures Cards in r <==> IsArrayOfObjects(data)
  {
    if IsArrayOfObjects(data) then {Raw, Table, Cards} else {Raw}
  }

  /** The selector's test admits every array of records, but also arrays that
      hold null or nested arrays, and the empty array. */
  lemma ArrayOfObjectsIsWeakerThanRecords(data: Json)
    ensures IsRecordSequence(data) ==> IsArrayOfObjects(data)
    ensures IsArrayOfObjects(JArray([JNull])) && !IsRecordSequence(JArray([JNull]))
    ensures IsArrayOfObjects(JArray([JArray([])])) && !IsRecordSequence(JArray([JArray([])]))
    ensures LegalViews(JArray([])) == {Raw, Table, Cards}
  {
    assert JArray([JNull]).items[0] == JNull;
    assert JArray([JArray([])]).items[0] == JArray([]);
  }

  /** Examples: an array of objects admits all three views; an array of
      numbers and a bare object admit only the raw view. */
  lemma LegalViewsExamples()
    ensures LegalViews(JArray([JObject([("a", JNumber(1.0))]), JObject([("a", JNumber(2.0))])]))
            == {Raw, Table, Cards}
    ensures LegalViews(JArray([JNumber(1.0), JNumber(2.0), JNumber(3.0)])) == {Raw}
    ensures LegalViews(EmptyObject) == {Raw}
  {
    assert !IsObjectType(JArray([JNumber(1.0), JNumber(2.0), JNumber(3.0)]).items[0]);
  }

  function DigitChar(d: nat): char
    requires d < 10
  {
    ('0' as int + d) as char
  }

  /** The decimal text of a natural number, as JavaScript writes an array
      index or the number after "Item ". */
  function DecimalString(n: nat): (r: string)
    ensures |r| > 0
    ensures forall k :: 0 <= k < |r| ==> '0' <= r[k] <= '9'
  {
    if n < 10 then [DigitChar(n)] else DecimalString(n / 10) + [DigitChar(n % 10)]
  }

  /** Object.entries(item) for an object-typed element other than null: an
      object's members in order, or an array's indices with its elements. */
  function OwnEntries(item: Json): (r: seq<(string, Json)>)
    requires IsObjectType(item) && !item.JNull?
    ensures item.JObject? ==> r == item.members
    ensures item.JArray? ==> |r| == |item.items|
    ensures item.JArray? ==> forall i :: 0 <= i < |r| ==> r[i] == (DecimalString(i), item.items[i])
  {
    if item.JObject? then item.members
    else seq(|item.items|, i requires 0 <= i < |item.items| => (DecimalString(i), item.items[i]))
  }

  function Keys(entries: seq<(string, Json)>): (r: seq<string>)
  {
    seq(|entries|, k requires 0 <= k < |entries| => entries[k].0)
  }

  /** The table: header cells and one row of cells per shown element. */
  datatype TableData = TableData(header: seq<string>, rows: seq<seq<string>>)

  /** A row shows the first values of its own element, in that element's own
      order, each as String(value); nothing looks them up by the header's keys. */
  predicate RowShows(lib: JsonLib, cells: seq<string>, entries: seq<(string, Json)>) {
    && |cells| == Min(MaxColumns, |entries|)
    && forall k :: 0 <= k < |cells| ==> cells[k] == ToText(lib, entries[k].1)
  }

  /** Object.values(item).slice(0, 5).map(String). */
  function RowCells(lib: JsonLib, entries: seq<(string, Json)>): (cells: seq<string>)
    ensures RowShows(lib, cells, entries)
  {
    var shown := Min(MaxColumns, |entries|);
    seq(shown, k requires 0 <= k < shown => ToText(lib, entries[k].1))
  }

  /** The rows of the table body for `items`; None when an element is null,
      since Object.values(null) throws. */
  function Rows(lib: JsonLib, items: seq<Json>): (r: Option<seq<seq<string>>>)
    requires forall i :: 0 <= i < |items| ==> IsObjectType(items[i])
    ensures r.Some? <==> forall i :: 0 <= i < |items| ==> !items[i].JNull?
    ensures r.Some? ==> |r.value| == |items|
    ensures r.Some? ==> forall i :: 0 <= i < |items| ==> RowShows(lib, r.value[i], OwnEntries(items[i]))
  {
    if items == [] then Some([])
    else if items[0].JNull? then None
    else
      assert forall i :: 1 <= i < |items| ==> items[i] == items[1..][i - 1];
      match Rows(lib, items[1..])
      case None => None
      case Some(rest) =>
        var rows := [RowCells(lib, OwnEntries(items[0]))] + rest;
        assert forall i :: 1 <= i < |items| ==> rows[i] == rest[i - 1];
        Some(rows)
  }

  /** The table view. The header is built from the keys of data[0], so an empty
      array or a null first element throws, as does a null among the shown rows;
      the result is then None. */
  function TableOf(lib: JsonLib, items: seq<Json>): (r: Option<TableData>)
    requires forall i :: 0 <= i < |items| ==> IsObjectType(items[i])
    ensures r.Some? <==> |items| > 0 && forall i :: 0 <= i < Min(MaxRows, |items|) ==> !items[i].JNull?
    ensures r.Some? ==> |r.value.header| == Min(MaxColumns, |OwnEntries(items[0])|)
    ensures r.Some? ==> forall k :: 0 <= k < |r.value.header| ==>
                          r.value.header[k] == OwnEntries(items[0])[k].0
    ensures r.Some? ==> |r.value.rows| == Min(MaxRows, |items|)
    ensures r.Some? ==> forall i :: 0 <= i < |r.value.rows| ==>
                          RowShows(lib, r.value.rows[i], OwnEntries(items[i]))
  {
    if items == [] || items[0].JNull? then None
    else
      var first := OwnEntries(items[0]);
      var header := Keys(first[..Min(MaxColumns, |first|)]);
      var shown := items[..Min(MaxRows, |items|)];
      match Rows(lib, shown)
      case None => None
      case Some(rows) => Some(TableData(header, rows))
  }

  /** One card: its title and its key/value lines. */
  datatype Card = Card(title: string, fields: seq<(string, string)>)

  /** Card number `i` (counting from 0) is titled "Item i+1" and lists the first
      entries of its element, each value as JSON.stringify(value). */
  predicate CardShows(lib: JsonLib, card: Card, i: nat, entries: seq<(string, Json)>) {
    && card.title == "Item " + DecimalString(i + 1)
    && |card.fields| == Min(MaxCardFields, |entries|)
    && forall k :: 0 <= k < |card.fields| ==>
         card.fields[k] == (entries[k].0, lib.stringify(entries[k].1))
  }

  function CardFor(lib: JsonLib, i: nat, entries: seq<(string, Json)>): (c: Card)
    ensures CardShows(lib, c, i, entries)
  {
    var shown := Min(MaxCardFields, |entries|);
    Card("Item " + DecimalString(i + 1),
         seq(shown, k requires 0 <= k < shown => (entries[k].0, lib.stringify(entries[k].1))))
  }

  /** The cards view: one card for each of the first 12 elements, in order;
      None when one of them is null, since Object.entries(null) throws. */
  function CardsOf(lib: JsonLib, items: seq<Json>): (r: Option<seq<Card>>)
    requires forall i :: 0 <= i < |items| ==> IsObjectType(items[i])
    ensures r.Some? <==> forall i :: 0 <= i < Min(MaxCards, |items|) ==> !items[i].JNull?
    ensures r.Some? ==> |r.value| == Min(MaxCards, |items|)
    ensures r.Some? ==> forall i :: 0 <= i < |r.value| ==>
                          CardShows(lib, r.value[i], i, OwnEntries(items[i]))
  {
    var n := Min(MaxCards, |items|);
    if exists i :: 0 <= i < n && items[i].JNull? then None
    else Some(seq(n, i requires 0 <= i < n => CardFor(lib, i, OwnEntries(items[i]))))
  }

  /** What the panel under the status line shows. */
  datatype Panel =
    | RawPanel(value: Json)
    | TablePanel(table: TableData)
    | CardsPanel(cards: seq<Card>)

  datatype Screen = Screen(selectorShown: bool, status: int, panel: Panel)

  /** The result of rendering the viewer: its screen, or Crashed when the
      render raises a TypeError (a missing first element or a null element).
      No component catches that error, so nothing of the viewer is shown. */
  datatype Rendering = Shown(screen: Screen) | Crashed

  /** The viewer for one response with `view` selected. A view other than raw
      can only have been chosen in the selector, which exists only when the
      payload is an array of objects; a new response mounts a new viewer, so the
      selection never outlives its payload. */
  function Render(lib: JsonLib, view: View, response: Envelope): (r: Rendering)
    requires view == Raw || IsArrayOfObjects(response.data)
    ensures r.Crashed? <==>
              || (view == Table && TableOf(lib, response.data.items).None?)
              || (view == Cards && CardsOf(lib, response.data.items).None?)
    ensures r.Shown? ==> (r.screen.selectorShown <==> IsArrayOfObjects(response.data))
    ensures r.Shown? ==> r.screen.status == response.status
    ensures view == Raw ==> r == Shown(Screen(IsArrayOfObjects(response.data), response.status,
                                              RawPanel(response.data)))
    ensures view == Table && r.Shown? ==>
              r.screen.panel.TablePanel? && TableOf(lib, response.data.items) == Some(r.screen.panel.table)
    ensures view == Cards && r.Shown? ==>
              r.screen.panel.CardsPanel? && CardsOf(lib, response.data.items) == Some(r.screen.panel.cards)
  {
    var data := response.data;
    var shown := IsArrayOfObjects(data);
    match view
    case Raw => Shown(Screen(shown, response.status, RawPanel(data)))
    case Table =>
      (match TableOf(lib, data.items)
       case Some(t) => Shown(Screen(shown, response.status, TablePanel(t)))
       case None => Crashed)
    case Cards =>
      (match CardsOf(lib, data.items)
       case Some(c) => Shown(Screen(shown, response.status, CardsPanel(c)))
       case None => Crashed)
  }

  /** A freshly shown response is displayed raw and whole. */
  lemma InitialViewShowsWholePayload(lib: JsonLib, response: Envelope)
    ensures Render(lib, InitialView, response).Shown?
    ensures Render(lib, InitialView, response).screen.panel == RawPanel(response.data)
  {
  }

  /** The empty array is offered the table and cards views; its cards view is
      empty, but its table view throws because there is no data[0], and the
      whole viewer disappears. */
  lemma EmptyArrayViews(lib: JsonLib, status: int)
    ensures IsArrayOfObjects(JArray([]))
    ensures TableOf(lib, []).None?
    ensures CardsOf(lib, []) == Some([])
    ensures Render(lib, Table, Envelope(true, JArray([]), status, None)) == Crashed
  {
  }

  /** Cells follow each row's own key order, not the header: for
      [{"a": "x", "b": "y"}, {"b": "p", "a": "q"}] the header is a, b and the
      second row shows p under a. */
  lemma CellsFollowRowOrder(lib: JsonLib)
    ensures var items := [JObject([("a", JString("x")), ("b", JString("y"))]),
                          JObject([("b", JString("p")), ("a", JString("q"))])];
            && TableOf(lib, items).Some?
            && TableOf(lib, items).value.header == ["a", "b"]
            && TableOf(lib, items).value.rows == [["x", "y"], ["p", "q"]]
  {
    var items := [JObject([("a", JString("x")), ("b", JString("y"))]),
                  JObject([("b", JString("p")), ("a", JString("q"))])];
    var t := TableOf(lib, items).value;
    assert OwnEntries(items[0]) == [("a", JString("x")), ("b", JString("y"))];
    assert OwnEntries(items[1]) == [("b", JString("p")), ("a", JString("q"))];
    assert RowShows(lib, t.rows[0], OwnEntries(items[0]));
    assert RowShows(lib, t.rows[1], OwnEntries(items[1]));
    assert |t.rows| == 2 && |t.rows[0]| == 2 && |t.rows[1]| == 2;
    assert t.rows[0][0] == "x" && t.rows[0][1] == "y";
    assert t.rows[1][0] == "p" && t.rows[1][1] == "q";
    assert t.rows[0] == ["x", "y"] && t.rows[1] == ["p", "q"];
  }
}
