/**
 The pricing comparison of the ratio sync controller: local prices against those of several upstream
 channels, per model and per field, with a pruning pass over nested maps that it edits in place.

 Prices are reals. A `Schema` lists the compared fields and says which of them hold numbers.
*/
module PriceDiff {
  import opened Prices

  /** A decoded JSON value as far as the comparison can tell values apart. */
  datatype Value = Nil | Num(r: real) | Int(n: int) | Text(s: string) | Bool(b: bool)

  const SAME := Text("same")

  type Table = map<string, Value>       // model -> value
  type Pricing = map<string, Table>     // field -> table

  datatype Schema = Schema(fields: seq<string>, numeric: set<string>)

  const PRICING := Schema(
    ["model_ratio", "completion_ratio", "cache_ratio", "create_cache_ratio", "image_ratio", "audio_ratio",
     "audio_completion_ratio", "model_price", "billing_mode", "billing_expr"],
    {"model_ratio", "completion_ratio", "cache_ratio", "create_cache_ratio", "image_ratio", "audio_ratio",
     "audio_completion_ratio", "model_price"})

  datatype Source = Source(name: string, data: Pricing)

  datatype Item = Item(current: Value, upstreams: map<string, Value>, confidence: map<string, bool>)

  type Differences = map<string, map<string, Item>>

  // ---- comparing values

  predicate ValuesEqual(a: Value, b: Value) {
    if a.Num? && b.Num? then NearlyEqual(a.r, b.r) else a == b
  }

  function Normalized(sch: Schema, field: string, v: Value): Value {
    if field in sch.numeric && v.Int? then Num(v.n as real) else v
  }

  function TableOf(p: Pricing, field: string): Table {
    if field in p then p[field] else map[]
  }

  predicate Quotes(p: Pricing, field: string, model: string) {
    model in TableOf(p, field)
  }

  function Quote(sch: Schema, p: Pricing, field: string, model: string): Value {
    if Quotes(p, field, model) then Normalized(sch, field, TableOf(p, field)[model]) else Nil
  }

  // ---- one cell: what a channel shows for a model and a field

  function CellOf(sch: Schema, local: Pricing, data: Pricing, model: string, field: string): Value {
    var current, v := Quote(sch, local, field, model), Quote(sch, data, field, model);
    if Quotes(data, field, model) && ValuesEqual(current, v) then SAME
    else if v == Nil && current == Nil then SAME
    else v
  }

  predicate Flags(sch: Schema, local: Pricing, data: Pricing, model: string, field: string) {
    var current, v := Quote(sch, local, field, model), Quote(sch, data, field, model);
    var cell := CellOf(sch, local, data, model, field);
    (Quotes(data, field, model) && current != Nil && !ValuesEqual(current, v)) || (current == Nil && cell != Nil && cell != SAME)
  }

  /** A difference the user can see: a real value, not null and not the marker itself, that local
      prices lack or contradict. */
  predicate Differs(sch: Schema, local: Pricing, data: Pricing, model: string, field: string) {
    var current, v := Quote(sch, local, field, model), Quote(sch, data, field, model);
    v != Nil && v != SAME && (current == Nil || !ValuesEqual(current, v))
  }

  /** A null or a literal "same" that contradicts a local price: flagged, but shown as no difference. */
  predicate Masked(sch: Schema, local: Pricing, data: Pricing, model: string, field: string) {
    var current, v := Quote(sch, local, field, model), Quote(sch, data, field, model);
    Quotes(data, field, model) && (v == Nil || v == SAME) && current != Nil && !ValuesEqual(current, v)
  }

  lemma CellShowsDifference(sch: Schema, local: Pricing, data: Pricing, model: string, field: string)
    ensures Differs(sch, local, data, model, field) <==>
            CellOf(sch, local, data, model, field) != Nil && CellOf(sch, local, data, model, field) != SAME
    ensures Flags(sch, local, data, model, field) <==>
            Differs(sch, local, data, model, field) || Masked(sch, local, data, model, field)
  {
  }

  /** What a cell shows, in terms of the quotes: the channel's own value when it differs, the marker when both
      agree or neither has a value, nothing when only the local price exists. A null and the text "same"
      show as themselves. */
  ghost predicate ShowsQuote(sch: Schema, local: Pricing, data: Pricing, model: string, field: string, cell: Value) {
    var current, v := Quote(sch, local, field, model), Quote(sch, data, field, model);
    && (Differs(sch, local, data, model, field) ==> cell == v)
    && (Quotes(data, field, model) && ValuesEqual(current, v) ==> cell == Text("same"))
    && (v == Nil && current == Nil ==> cell == Text("same"))
    && (v == Nil && current != Nil ==> cell == Nil)
    && (Quotes(data, field, model) && v == Text("same") ==> cell == Text("same"))
  }

  lemma CellShowsQuote(sch: Schema, local: Pricing, data: Pricing, model: string, field: string)
    ensures ShowsQuote(sch, local, data, model, field, CellOf(sch, local, data, model, field))
  {
  }

  /** When a quoted value contradicts the local one: numbers by a billionth or more, other values by being
      different. A difference to show is such a contradiction that is neither null nor the marker text. */
  lemma DiffersIff(sch: Schema, local: Pricing, data: Pricing, model: string, field: string)
    ensures var current, v := Quote(sch, local, field, model), Quote(sch, data, field, model);
            var apart := if current.Num? && v.Num? then v.r - current.r >= 0.000000001 || current.r - v.r >= 0.000000001
                         else current != v;
            && (Contradicts(sch, local, data, model, field) <==> Quotes(data, field, model) && apart)
            && (Differs(sch, local, data, model, field) <==> v != Nil && v != Text("same") && apart)
  {
  }

  /** A quote is the table entry, with whole numbers in numeric fields read as prices, and null without one. */
  lemma QuoteMeans(sch: Schema, p: Pricing, field: string, model: string)
    ensures Quote(sch, p, field, model) ==
            if field in p && model in p[field]
            then if p[field][model].Int? && field in sch.numeric then Num(p[field][model].n as real) else p[field][model]
            else Nil
  {
  }

  // ---- the first phases

  ghost predicate Included(sch: Schema, local: Pricing, channels: seq<Source>, model: string, field: string) {
    if Quote(sch, local, field, model) != Nil
    then SomeFlags(sch, local, channels, model, field)
    else exists i :: 0 <= i < |channels| && Quotes(channels[i].data, field, model)
  }

  /** Some channel, heard or not, makes the item worth listing. */
  ghost predicate SomeFlags(sch: Schema, local: Pricing, channels: seq<Source>, model: string, field: string) {
    exists i :: 0 <= i < |channels| && Flags(sch, local, channels[i].data, model, field)
  }

  /** The two flags of an item after the first `n` channels. */
  predicate QuotedBelow(channels: seq<Source>, model: string, field: string, n: nat)
    requires n <= |channels|
  {
    n > 0 && (QuotedBelow(channels, model, field, n - 1) || Quotes(channels[n - 1].data, field, model))
  }

  predicate FlaggedBelow(sch: Schema, local: Pricing, channels: seq<Source>, model: string, field: string, n: nat)
    requires n <= |channels|
  {
    n > 0 && (FlaggedBelow(sch, local, channels, model, field, n - 1) || Flags(sch, local, channels[n - 1].data, model, field))
  }

  lemma {:induction false} BelowMeans(sch: Schema, local: Pricing, channels: seq<Source>, model: string, field: string, n: nat)
    requires n <= |channels|
    ensures QuotedBelow(channels, model, field, n) <==> exists i :: 0 <= i < n && Quotes(channels[i].data, field, model)
    ensures FlaggedBelow(sch, local, channels, model, field, n) <==>
            exists i :: 0 <= i < n && Flags(sch, local, channels[i].data, model, field)
  {
    if n > 0 {
      BelowMeans(sch, local, channels, model, field, n - 1);
    }
  }

  ghost predicate HasModel(sch: Schema, p: Pricing, model: string) {
    exists f :: f in sch.fields && Quotes(p, f, model)
  }

  ghost predicate Known(sch: Schema, local: Pricing, channels: seq<Source>, model: string) {
    HasModel(sch, local, model) || exists i :: 0 <= i < |channels| && HasModel(sch, channels[i].data, model)
  }

  predicate Untrusted(v: Value, w: Value) {
    && (v.Num? || v.Int?) && (w.Num? || w.Int?)
    && NearlyEqual(if v.Num? then v.r else v.n as real, 37.5)
    && NearlyEqual(if w.Num? then w.r else w.n as real, 1.0)
  }

  /** A channel is trusted for a model unless it quotes the placeholder ratios 37.5 and 1. */
  predicate Trusted(data: Pricing, model: string) {
    var ratios, completions := TableOf(data, "model_ratio"), TableOf(data, "completion_ratio");
    !(model in ratios && model in completions && Untrusted(ratios[model], completions[model]))
  }

  predicate Near(v: Value, price: real) {
    match v
    case Num(r) => price - 0.000000001 < r < price + 0.000000001
    case Int(n) => price - 0.000000001 < n as real < price + 0.000000001
    case _ => false
  }

  /** The channel quotes the ratio 37.5 and the completion ratio 1 for the model. */
  predicate Placeholder(data: Pricing, model: string) {
    && "model_ratio" in data && model in data["model_ratio"] && Near(data["model_ratio"][model], 37.5)
    && "completion_ratio" in data && model in data["completion_ratio"] && Near(data["completion_ratio"][model], 1.0)
  }

  lemma TrustedMeans(data: Pricing, model: string)
    ensures Trusted(data, model) <==> !Placeholder(data, model)
  {
  }

  /** The cells of the first `n` channels. */
  function Cells(sch: Schema, local: Pricing, channels: seq<Source>, model: string, field: string, n: nat): map<string, Value>
    requires n <= |channels|
  {
    if n == 0 then map[]
    else Cells(sch, local, channels, model, field, n - 1)[channels[n - 1].name :=
           CellOf(sch, local, channels[n - 1].data, model, field)]
  }

  function Confidence(channels: seq<Source>, model: string, n: nat): map<string, bool>
    requires n <= |channels|
  {
    if n == 0 then map[]
    else Confidence(channels, model, n - 1)[channels[n - 1].name := Trusted(channels[n - 1].data, model)]
  }

  function ItemOf(sch: Schema, local: Pricing, channels: seq<Source>, model: string, field: string): Item {
    Item(Quote(sch, local, field, model), Cells(sch, local, channels, model, field, |channels|),
         Confidence(channels, model, |channels|))
  }

  /** Among the first `n` channels, `i` is the last with its name: its cells are the ones kept. */
  ghost predicate HeardBelow(channels: seq<Source>, n: nat, i: int)
    requires n <= |channels|
  {
    0 <= i < n && forall j :: i < j < n ==> channels[j].name != channels[i].name
  }

  ghost predicate Heard(channels: seq<Source>, i: int) {
    HeardBelow(channels, |channels|, i)
  }

  ghost predicate Distinct(channels: seq<Source>) {
    forall i, j :: 0 <= i < j < |channels| ==> channels[i].name != channels[j].name
  }

  predicate Entry(d: Differences, model: string, field: string) {
    model in d && field in d[model]
  }

  /** allModels: every model some table of a compared field mentions. */
  method CollectModels(sch: Schema, local: Pricing, channels: seq<Source>) returns (models: set<string>)
    ensures forall m :: m in models <==> Known(sch, local, channels, m)
  {
    models := ModelsOf(sch, local);
    for i := 0 to |channels|
      invariant forall m :: m in models <==>
        HasModel(sch, local, m) || exists k :: 0 <= k < i && HasModel(sch, channels[k].data, m)
    {
      var more := ModelsOf(sch, channels[i].data);
      models := models + more;
    }
  }

  method ModelsOf(sch: Schema, p: Pricing) returns (models: set<string>)
    ensures forall m :: m in models <==> HasModel(sch, p, m)
  {
    models := {};
    for i := 0 to |sch.fields|
      invariant forall m :: m in models <==> exists k :: 0 <= k < i && Quotes(p, sch.fields[k], m)
    {
      models := models + TableOf(p, sch.fields[i]).Keys;
    }
  }

  /** What one channel shows for an item, and whether that makes the item worth listing. */
  method CompareCell(sch: Schema, local: Pricing, data: Pricing, model: string, field: string)
    returns (upstream: Value, quotes: bool, flags: bool)
    ensures upstream == CellOf(sch, local, data, model, field)
    ensures quotes == Quotes(data, field, model) && flags == Flags(sch, local, data, model, field)
  {
    var current := Quote(sch, local, field, model);
    upstream, quotes, flags := Nil, false, false;
    if Quotes(data, field, model) {
      upstream := Quote(sch, data, field, model);
      quotes := true;
      if current != Nil && !ValuesEqual(current, upstream) {
        flags := true;
      } else if ValuesEqual(current, upstream) {
        upstream := SAME;
      }
    }
    if upstream == Nil && current == Nil {
      upstream := SAME;
    }
    if current == Nil && upstream != Nil && upstream != SAME {
      flags := true;
    }
  }

  /** One item: the cells and confidences of all channels, and whether it is listed at all. */
  method BuildItem(sch: Schema, local: Pricing, channels: seq<Source>, model: string, field: string)
    returns (included: bool, item: Item)
    ensures included <==> Included(sch, local, channels, model, field)
    ensures item == ItemOf(sch, local, channels, model, field)
  {
    var upstreams: map<string, Value>, confidence: map<string, bool> := map[], map[];
    var hasUpstream, hasDifference := false, false;
    for i := 0 to |channels|
      invariant upstreams == Cells(sch, local, channels, model, field, i)
      invariant confidence == Confidence(channels, model, i)
      invariant hasUpstream == QuotedBelow(channels, model, field, i)
      invariant hasDifference == FlaggedBelow(sch, local, channels, model, field, i)
    {
      var upstream, quotes, flags := CompareCell(sch, local, channels[i].data, model, field);
      hasUpstream := hasUpstream || quotes;
      hasDifference := hasDifference || flags;
      upstreams := upstreams[channels[i].name := upstream];
      confidence := confidence[channels[i].name := Trusted(channels[i].data, model)];
    }
    BelowMeans(sch, local, channels, model, field, |channels|);
    var current := Quote(sch, local, field, model);
    included := if current != Nil then hasDifference else hasUpstream;
    item := Item(current, upstreams, confidence);
  }

  ghost function RowOf(sch: Schema, local: Pricing, channels: seq<Source>, model: string): map<string, Item> {
    map f | f in sch.fields && Included(sch, local, channels, model, f) :: ItemOf(sch, local, channels, model, f)
  }

  /** The listed items of one model. */
  method BuildRow(sch: Schema, local: Pricing, channels: seq<Source>, model: string) returns (row: map<string, Item>)
    ensures row == RowOf(sch, local, channels, model)
  {
    row := map[];
    for i := 0 to |sch.fields|
      invariant forall f :: f in row <==> f in sch.fields[..i] && Included(sch, local, channels, model, f)
      invariant forall f :: f in row ==> row[f] == ItemOf(sch, local, channels, model, f)
    {
      var field := sch.fields[i];
      var included, item := BuildItem(sch, local, channels, model, field);
      assert sch.fields[..i + 1] == sch.fields[..i] + [field];
      if included {
        row := row[field := item];
      }
    }
    assert sch.fields[..|sch.fields|] == sch.fields;
  }

  /** Every model with at least one listed item. */
  method BuildRows(sch: Schema, local: Pricing, channels: seq<Source>, models: set<string>) returns (d: Differences)
    ensures forall m :: m in d <==> m in models && RowOf(sch, local, channels, m) != map[]
    ensures forall m :: m in d ==> d[m] == RowOf(sch, local, channels, m)
  {
    d := map[];
    var todo := models;
    while todo != {}
      invariant todo <= models
      invariant forall m :: m in d <==> m in models - todo && RowOf(sch, local, channels, m) != map[]
      invariant forall m :: m in d ==> d[m] == RowOf(sch, local, channels, m)
      decreases todo
    {
      var model :| model in todo;
      var row := BuildRow(sch, local, channels, model);
      todo := todo - {model};
      if row != map[] {
        d := d[model := row];
      }
    }
  }

  // ---- pruning

  ghost predicate Shows(item: Item, name: string) {
    name in item.upstreams && item.upstreams[name] != Nil && item.upstreams[name] != SAME
  }

  /** channelHasDiff: the channels with a real value in some listed item. */
  ghost predicate Active(d: Differences, name: string) {
    exists m, f :: Entry(d, m, f) && Shows(d[m][f], name)
  }

  method MarkRow(row: map<string, Item>) returns (active: set<string>)
    ensures forall n :: n in active <==> exists f :: f in row && Shows(row[f], n)
  {
    active := {};
    var todo := row.Keys;
    while todo != {}
      invariant todo <= row.Keys
      invariant forall n :: n in active <==> exists f :: f in row && f !in todo && Shows(row[f], n)
      decreases todo
    {
      var field :| field in todo;
      var names := row[field].upstreams;
      active := active + set n | n in names && names[n] != Nil && names[n] != SAME;
      todo := todo - {field};
    }
  }

  method MarkActive(d: Differences) returns (active: set<string>)
    ensures forall n :: n in active <==> Active(d, n)
  {
    active := {};
    var todo := d.Keys;
    while todo != {}
      invariant todo <= d.Keys
      invariant forall n :: n in active <==> exists m, f :: m !in todo && Entry(d, m, f) && Shows(d[m][f], n)
      decreases todo
    {
      var model :| model in todo;
      var more := MarkRow(d[model]);
      active := active + more;
      todo := todo - {model};
    }
  }

  function Pruned(item: Item, active: set<string>): Item {
    Item(item.current,
         map n | n in item.upstreams && n in active :: item.upstreams[n],
         map n | n in item.confidence && n in active :: item.confidence[n])
  }

  /** Something other than the marker is left to show. */
  predicate Worth(item: Item) {
    exists n :: n in item.upstreams && item.upstreams[n] != SAME
  }

  ghost function PrunedRow(row: map<string, Item>, active: set<string>): map<string, Item> {
    map f | f in row && Worth(Pruned(row[f], active)) :: Pruned(row[f], active)
  }

  /** Remove the channels without differences from one item, and test what is left. */
  method PruneItem(item: Item, active: set<string>) returns (pruned: Item, keep: bool)
    requires item.upstreams.Keys == item.confidence.Keys
    ensures pruned == Pruned(item, active)
    ensures keep <==> Worth(pruned)
  {
    var upstreams, confidence := item.upstreams, item.confidence;
    var todo := item.upstreams.Keys;
    while todo != {}
      invariant todo <= item.upstreams.Keys
      invariant upstreams == map n | n in item.upstreams && (n in todo || n in active) :: item.upstreams[n]
      invariant confidence == map n | n in item.confidence && (n in todo || n in active) :: item.confidence[n]
      decreases todo
    {
      var name :| name in todo;
      if name !in active {
        upstreams := upstreams - {name};
        confidence := confidence - {name};
      }
      todo := todo - {name};
    }
    pruned := Item(item.current, upstreams, confidence);
    keep := exists n :: n in upstreams && upstreams[n] != SAME;
  }

  ghost predicate SameNames(row: map<string, Item>) {
    forall f :: f in row ==> row[f].upstreams.Keys == row[f].confidence.Keys
  }

  method PruneRow(row: map<string, Item>, active: set<string>) returns (r: map<string, Item>)
    requires SameNames(row)
    ensures r == PrunedRow(row, active)
  {
    r := row;
    var todo := row.Keys;
    while todo != {}
      invariant todo <= row.Keys
      invariant forall f :: f in r <==> f in row && (f in todo || Worth(Pruned(row[f], active)))
      invariant forall f :: f in r ==> r[f] == if f in todo then row[f] else Pruned(row[f], active)
      decreases todo
    {
      var field :| field in todo;
      var item, keep := PruneItem(row[field], active);
      r := if keep then r[field := item] else r - {field};
      todo := todo - {field};
    }
  }

  method PruneRows(d: Differences, active: set<string>) returns (r: Differences)
    requires forall m :: m in d ==> SameNames(d[m])
    ensures forall m :: m in r <==> m in d && PrunedRow(d[m], active) != map[]
    ensures forall m :: m in r ==> r[m] == PrunedRow(d[m], active)
  {
    r := d;
    var todo := d.Keys;
    while todo != {}
      invariant todo <= d.Keys
      invariant forall m :: m in r <==> m in d && (m in todo || PrunedRow(d[m], active) != map[])
      invariant forall m :: m in r ==> r[m] == if m in todo then d[m] else PrunedRow(d[m], active)
      decreases todo
    {
      var model :| model in todo;
      var row := PruneRow(d[model], active);
      r := if row == map[] then r - {model} else r[model := row];
      todo := todo - {model};
    }
  }

  // ---- cells by channel name

  lemma {:induction false} CellsAt(sch: Schema, local: Pricing, channels: seq<Source>, model: string, field: string, n: nat, i: nat)
    requires n <= |channels| && HeardBelow(channels, n, i)
    ensures var cells := Cells(sch, local, channels, model, field, n);
            channels[i].name in cells && cells[channels[i].name] == CellOf(sch, local, channels[i].data, model, field)
  {
    if i < n - 1 {
      CellsAt(sch, local, channels, model, field, n - 1, i);
    }
  }

  lemma {:induction false} ConfidenceAt(channels: seq<Source>, model: string, n: nat, i: nat)
    requires n <= |channels| && HeardBelow(channels, n, i)
    ensures var conf := Confidence(channels, model, n);
            channels[i].name in conf && conf[channels[i].name] == Trusted(channels[i].data, model)
  {
    if i < n - 1 {
      ConfidenceAt(channels, model, n - 1, i);
    }
  }

  lemma {:induction false} NamesAre(sch: Schema, local: Pricing, channels: seq<Source>, model: string, field: string, n: nat)
    requires n <= |channels|
    ensures Cells(sch, local, channels, model, field, n).Keys == Confidence(channels, model, n).Keys
    ensures forall name :: name in Cells(sch, local, channels, model, field, n) ==>
              exists i :: HeardBelow(channels, n, i) && channels[i].name == name
  {
    if n > 0 {
      var before := Cells(sch, local, channels, model, field, n - 1);
      NamesAre(sch, local, channels, model, field, n - 1);
      forall name | name in Cells(sch, local, channels, model, field, n)
        ensures exists i :: HeardBelow(channels, n, i) && channels[i].name == name
      {
        if name == channels[n - 1].name {
          assert HeardBelow(channels, n, n - 1);
        } else {
          assert name in before;
          var i :| HeardBelow(channels, n - 1, i) && channels[i].name == name;
          assert HeardBelow(channels, n, i);
        }
      }
    }
  }

  // ---- which channels and which items survive

  /** The channel differs from local prices somewhere. */
  ghost predicate DiffersSomewhere(sch: Schema, local: Pricing, data: Pricing) {
    exists m, f :: f in sch.fields && Differs(sch, local, data, m, f)
  }

  ghost predicate SomeDiffers(sch: Schema, local: Pricing, channels: seq<Source>, model: string, field: string) {
    exists i :: Heard(channels, i) && Differs(sch, local, channels[i].data, model, field)
  }

  /** Some channel that differs elsewhere has nothing to show for this item. */
  ghost predicate SomeSilent(sch: Schema, local: Pricing, channels: seq<Source>, model: string, field: string) {
    exists i :: Heard(channels, i) && DiffersSomewhere(sch, local, channels[i].data)
      && CellOf(sch, local, channels[i].data, model, field) == Nil
  }

  lemma DiffersIsListed(sch: Schema, local: Pricing, channels: seq<Source>, i: nat, model: string, field: string)
    requires i < |channels| && field in sch.fields && Differs(sch, local, channels[i].data, model, field)
    ensures Known(sch, local, channels, model) && Included(sch, local, channels, model, field)
  {
    CellShowsDifference(sch, local, channels[i].data, model, field);
    FlaggedIsListed(sch, local, channels, i, model, field);
  }

  /** The rows before pruning. */
  ghost predicate Listed(sch: Schema, local: Pricing, channels: seq<Source>, d: Differences) {
    forall m, f :: Entry(d, m, f) <==>
      Known(sch, local, channels, m) && f in sch.fields && Included(sch, local, channels, m, f)
  }

  ghost predicate Itemised(sch: Schema, local: Pricing, channels: seq<Source>, d: Differences) {
    forall m, f :: Entry(d, m, f) ==> d[m][f] == ItemOf(sch, local, channels, m, f)
  }

  lemma ActiveMeans(sch: Schema, local: Pricing, channels: seq<Source>, d: Differences, i: nat)
    requires Heard(channels, i) && Listed(sch, local, channels, d) && Itemised(sch, local, channels, d)
    ensures Active(d, channels[i].name) <==> DiffersSomewhere(sch, local, channels[i].data)
  {
    var data, name := channels[i].data, channels[i].name;
    if Active(d, name) {
      var m, f :| Entry(d, m, f) && Shows(d[m][f], name);
      CellsAt(sch, local, channels, m, f, |channels|, i);
      CellShowsDifference(sch, local, data, m, f);
    }
    if DiffersSomewhere(sch, local, data) {
      var m, f :| f in sch.fields && Differs(sch, local, data, m, f);
      DiffersIsListed(sch, local, channels, i, m, f);
      CellsAt(sch, local, channels, m, f, |channels|, i);
      CellShowsDifference(sch, local, data, m, f);
      assert Entry(d, m, f) && Shows(d[m][f], name);
    }
  }

  /** What pruning leaves of a listed item is worth showing exactly when a channel differs here, or a
      channel that differs elsewhere has no value here. */
  lemma WorthMeans(sch: Schema, local: Pricing, channels: seq<Source>, d: Differences, active: set<string>,
                   model: string, field: string)
    requires Listed(sch, local, channels, d) && Itemised(sch, local, channels, d)
    requires (forall n :: n in active <==> Active(d, n)) && field in sch.fields
    ensures Worth(Pruned(ItemOf(sch, local, channels, model, field), active)) <==>
            SomeDiffers(sch, local, channels, model, field) || SomeSilent(sch, local, channels, model, field)
  {
    if Worth(Pruned(ItemOf(sch, local, channels, model, field), active)) {
      WorthOnlyIf(sch, local, channels, d, active, model, field);
    }
    if i :| Heard(channels, i) && Differs(sch, local, channels[i].data, model, field) {
      WorthBecause(sch, local, channels, d, active, model, field, i);
    } else if i :| Heard(channels, i) && DiffersSomewhere(sch, local, channels[i].data)
                   && CellOf(sch, local, channels[i].data, model, field) == Nil {
      WorthBecause(sch, local, channels, d, active, model, field, i);
    }
  }

  lemma WorthOnlyIf(sch: Schema, local: Pricing, channels: seq<Source>, d: Differences, active: set<string>,
                    model: string, field: string)
    requires Listed(sch, local, channels, d) && Itemised(sch, local, channels, d)
    requires (forall n :: n in active <==> Active(d, n)) && field in sch.fields
    requires Worth(Pruned(ItemOf(sch, local, channels, model, field), active))
    ensures SomeDiffers(sch, local, channels, model, field) || SomeSilent(sch, local, channels, model, field)
  {
    var i := WorthChannel(sch, local, channels, active, model, field);
    ActiveMeans(sch, local, channels, d, i);
    CellShowsDifference(sch, local, channels[i].data, model, field);
  }

  /** The channel that makes a pruned item worth showing. */
  lemma WorthChannel(sch: Schema, local: Pricing, channels: seq<Source>, active: set<string>, model: string, field: string)
    returns (i: nat)
    requires Worth(Pruned(ItemOf(sch, local, channels, model, field), active))
    ensures Heard(channels, i) && channels[i].name in active && CellOf(sch, local, channels[i].data, model, field) != SAME
  {
    var cells := Cells(sch, local, channels, model, field, |channels|);
    var n :| n in cells && n in active && cells[n] != SAME;
    i := HeardAs(sch, local, channels, model, field, n);
    CellsAt(sch, local, channels, model, field, |channels|, i);
  }

  lemma HeardAs(sch: Schema, local: Pricing, channels: seq<Source>, model: string, field: string, name: string)
    returns (i: nat)
    requires name in Cells(sch, local, channels, model, field, |channels|)
    ensures Heard(channels, i) && channels[i].name == name
  {
    NamesAre(sch, local, channels, model, field, |channels|);
    var k :| HeardBelow(channels, |channels|, k) && channels[k].name == name;
    i := k;
  }

  lemma WorthBecause(sch: Schema, local: Pricing, channels: seq<Source>, d: Differences, active: set<string>,
                     model: string, field: string, i: nat)
    requires Listed(sch, local, channels, d) && Itemised(sch, local, channels, d)
    requires (forall n :: n in active <==> Active(d, n)) && field in sch.fields && Heard(channels, i)
    requires Differs(sch, local, channels[i].data, model, field)
             || (DiffersSomewhere(sch, local, channels[i].data) && CellOf(sch, local, channels[i].data, model, field) == Nil)
    ensures Worth(Pruned(ItemOf(sch, local, channels, model, field), active))
  {
    ActiveMeans(sch, local, channels, d, i);
    CellsAt(sch, local, channels, model, field, |channels|, i);
    CellShowsDifference(sch, local, channels[i].data, model, field);
    var item := Pruned(ItemOf(sch, local, channels, model, field), active);
    assert channels[i].name in item.upstreams && item.upstreams[channels[i].name] != SAME;
  }

  /** What the comparison reports: the items with a real difference of a heard channel, and besides them
      only those where some channel is flagged (a null, a literal "same", or one drowned out by a later
      channel of the same name) while a heard channel that differs elsewhere is silent. */
  ghost predicate Survives(sch: Schema, local: Pricing, channels: seq<Source>, model: string, field: string) {
    || SomeDiffers(sch, local, channels, model, field)
    || (SomeFlags(sch, local, channels, model, field) && SomeSilent(sch, local, channels, model, field))
  }

  ghost predicate Reports(sch: Schema, local: Pricing, channels: seq<Source>, r: Differences) {
    && (forall m, f :: Entry(r, m, f) <==> f in sch.fields && Survives(sch, local, channels, m, f))
    && (forall m :: m in r ==> r[m] != map[])
  }

  /** An item lists exactly the channels that differ somewhere, with their cells and confidences. */
  ghost predicate ListsChannels(sch: Schema, local: Pricing, channels: seq<Source>, model: string, field: string, item: Item) {
    && item.current == Quote(sch, local, field, model)
    && (forall i :: Heard(channels, i) ==>
          (channels[i].name in item.upstreams <==> DiffersSomewhere(sch, local, channels[i].data)))
    && (forall i :: Heard(channels, i) && channels[i].name in item.upstreams ==>
          && ShowsQuote(sch, local, channels[i].data, model, field, item.upstreams[channels[i].name])
          && channels[i].name in item.confidence
          && (item.confidence[channels[i].name] <==> !Placeholder(channels[i].data, model)))
    && (forall n :: n in item.upstreams ==> exists i :: Heard(channels, i) && channels[i].name == n)
  }

  lemma RowsListed(sch: Schema, local: Pricing, channels: seq<Source>, models: set<string>, d: Differences)
    requires forall m :: m in models <==> Known(sch, local, channels, m)
    requires forall m :: m in d <==> m in models && RowOf(sch, local, channels, m) != map[]
    requires forall m :: m in d ==> d[m] == RowOf(sch, local, channels, m)
    ensures Listed(sch, local, channels, d) && Itemised(sch, local, channels, d)
  {
    forall m, f
      ensures Entry(d, m, f) <==> m in models && f in sch.fields && Included(sch, local, channels, m, f)
      ensures Entry(d, m, f) ==> d[m][f] == ItemOf(sch, local, channels, m, f)
    {
      if m in models && f in sch.fields && Included(sch, local, channels, m, f) {
        assert f in RowOf(sch, local, channels, m);
      }
    }
  }

  lemma SurvivesMeans(sch: Schema, local: Pricing, channels: seq<Source>, d: Differences, active: set<string>,
                      model: string, field: string)
    requires Listed(sch, local, channels, d) && Itemised(sch, local, channels, d)
    requires forall n :: n in active <==> Active(d, n)
    ensures Entry(d, model, field) && Worth(Pruned(d[model][field], active)) <==>
            field in sch.fields && Survives(sch, local, channels, model, field)
  {
    if field in sch.fields {
      WorthMeans(sch, local, channels, d, active, model, field);
      SurvivorIsListed(sch, local, channels, model, field);
    }
  }

  lemma FlaggedIsListed(sch: Schema, local: Pricing, channels: seq<Source>, i: nat, model: string, field: string)
    requires i < |channels| && field in sch.fields && Flags(sch, local, channels[i].data, model, field)
    ensures Known(sch, local, channels, model) && Included(sch, local, channels, model, field)
  {
    CellShowsDifference(sch, local, channels[i].data, model, field);
    assert Quotes(channels[i].data, field, model) && HasModel(sch, channels[i].data, model);
  }

  /** Surviving items are listed ones, and a silent channel means a local price. */
  lemma SurvivorIsListed(sch: Schema, local: Pricing, channels: seq<Source>, model: string, field: string)
    requires field in sch.fields
    ensures Survives(sch, local, channels, model, field) ==>
              Known(sch, local, channels, model) && Included(sch, local, channels, model, field)
    ensures SomeSilent(sch, local, channels, model, field) ==> Quote(sch, local, field, model) != Nil
  {
    if i :| Heard(channels, i) && Differs(sch, local, channels[i].data, model, field) {
      DiffersIsListed(sch, local, channels, i, model, field);
    } else if i :| 0 <= i < |channels| && Flags(sch, local, channels[i].data, model, field) {
      FlaggedIsListed(sch, local, channels, i, model, field);
    }
  }

  lemma PrunedLists(sch: Schema, local: Pricing, channels: seq<Source>, d: Differences, active: set<string>,
                    model: string, field: string)
    requires Listed(sch, local, channels, d) && Itemised(sch, local, channels, d)
    requires forall n :: n in active <==> Active(d, n)
    ensures ListsChannels(sch, local, channels, model, field, Pruned(ItemOf(sch, local, channels, model, field), active))
  {
    NamesAre(sch, local, channels, model, field, |channels|);
    forall i | Heard(channels, i)
      ensures channels[i].name in active <==> DiffersSomewhere(sch, local, channels[i].data)
      ensures channels[i].name in Cells(sch, local, channels, model, field, |channels|)
      ensures Cells(sch, local, channels, model, field, |channels|)[channels[i].name] == CellOf(sch, local, channels[i].data, model, field)
      ensures channels[i].name in Confidence(channels, model, |channels|)
      ensures Confidence(channels, model, |channels|)[channels[i].name] == Trusted(channels[i].data, model)
    {
      ActiveMeans(sch, local, channels, d, i);
      CellsAt(sch, local, channels, model, field, |channels|, i);
      ConfidenceAt(channels, model, |channels|, i);
    }
    forall i | Heard(channels, i)
      ensures ShowsQuote(sch, local, channels[i].data, model, field, CellOf(sch, local, channels[i].data, model, field))
      ensures Trusted(channels[i].data, model) <==> !Placeholder(channels[i].data, model)
    {
      CellShowsQuote(sch, local, channels[i].data, model, field);
      TrustedMeans(channels[i].data, model);
    }
  }

  lemma NamesMatch(sch: Schema, local: Pricing, channels: seq<Source>, row: map<string, Item>, model: string)
    requires row == RowOf(sch, local, channels, model)
    ensures SameNames(row)
  {
    forall f | f in row
      ensures row[f].upstreams.Keys == row[f].confidence.Keys
    {
      NamesAre(sch, local, channels, model, f, |channels|);
    }
  }

  /** buildDifferences, all phases. */
  method BuildDifferences(sch: Schema, local: Pricing, channels: seq<Source>) returns (r: Differences)
    ensures Reports(sch, local, channels, r)
    ensures forall m, f :: Entry(r, m, f) ==> ListsChannels(sch, local, channels, m, f, r[m][f])
  {
    var models := CollectModels(sch, local, channels);
    var d := BuildRows(sch, local, channels, models);
    RowsListed(sch, local, channels, models, d);
    forall m | m in d
      ensures SameNames(d[m])
    {
      NamesMatch(sch, local, channels, d[m], m);
    }
    var active := MarkActive(d);
    r := PruneRows(d, active);
    forall m, f
      ensures Entry(r, m, f) <==> Entry(d, m, f) && Worth(Pruned(d[m][f], active))
      ensures Entry(r, m, f) <==> f in sch.fields && Survives(sch, local, channels, m, f)
      ensures Entry(r, m, f) ==> ListsChannels(sch, local, channels, m, f, r[m][f])
    {
      EntryPruned(d, r, active, m, f);
      SurvivesMeans(sch, local, channels, d, active, m, f);
      PrunedLists(sch, local, channels, d, active, m, f);
    }
  }

  lemma EntryPruned(d: Differences, r: Differences, active: set<string>, model: string, field: string)
    requires forall m :: m in r <==> m in d && PrunedRow(d[m], active) != map[]
    requires forall m :: m in r ==> r[m] == PrunedRow(d[m], active)
    ensures Entry(r, model, field) <==> Entry(d, model, field) && Worth(Pruned(d[model][field], active))
    ensures Entry(r, model, field) ==> r[model][field] == Pruned(d[model][field], active)
  {
    if Entry(d, model, field) && Worth(Pruned(d[model][field], active)) {
      assert field in PrunedRow(d[model], active);
    }
  }

  // ---- the promise and where it fails

  /** The promised meaning of a difference: a quoted value that local prices lack or contradict. */
  predicate Contradicts(sch: Schema, local: Pricing, data: Pricing, model: string, field: string) {
    Quotes(data, field, model) && !ValuesEqual(Quote(sch, local, field, model), Quote(sch, data, field, model))
  }

  ghost predicate SomeContradicts(sch: Schema, local: Pricing, channels: seq<Source>, model: string, field: string) {
    exists i :: 0 <= i < |channels| && Contradicts(sch, local, channels[i].data, model, field)
  }

  /** The channel quotes a null or the marker text itself. */
  predicate Unprintable(sch: Schema, data: Pricing, model: string, field: string) {
    Quotes(data, field, model) && (Quote(sch, data, field, model) == Nil || Quote(sch, data, field, model) == SAME)
  }

  /** An item is reported exactly when some channel contradicts local prices, unless no heard channel shows a
      difference (every contradicting value is a null, the text "same", or drowned out by a later channel
      of the same name); then it is reported exactly when the local price exists and some heard channel
      that differs elsewhere is silent. */
  lemma ReportedIff(sch: Schema, local: Pricing, channels: seq<Source>, model: string, field: string)
    ensures (Survives(sch, local, channels, model, field) <==> SomeContradicts(sch, local, channels, model, field)) <==>
            || SomeDiffers(sch, local, channels, model, field)
            || !SomeContradicts(sch, local, channels, model, field)
            || (Quote(sch, local, field, model) != Nil && SomeSilent(sch, local, channels, model, field))
  {
    forall i | 0 <= i < |channels|
      ensures Flags(sch, local, channels[i].data, model, field) ==> Contradicts(sch, local, channels[i].data, model, field)
      ensures Contradicts(sch, local, channels[i].data, model, field) && Quote(sch, local, field, model) != Nil ==>
                Flags(sch, local, channels[i].data, model, field)
      ensures Differs(sch, local, channels[i].data, model, field) ==> Contradicts(sch, local, channels[i].data, model, field)
    {
    }
  }

  /** With distinct names and values that are neither null nor "same", pruning never loses a difference and
      never keeps anything else. */
  lemma PlainValuesExact(sch: Schema, local: Pricing, channels: seq<Source>, model: string, field: string)
    requires Distinct(channels) && forall i :: 0 <= i < |channels| ==> !Unprintable(sch, channels[i].data, model, field)
    ensures Survives(sch, local, channels, model, field) <==> SomeContradicts(sch, local, channels, model, field)
  {
    ReportedIff(sch, local, channels, model, field);
    if i :| 0 <= i < |channels| && Contradicts(sch, local, channels[i].data, model, field) {
      assert !Unprintable(sch, channels[i].data, model, field);
      assert Differs(sch, local, channels[i].data, model, field);
      assert Heard(channels, i);
    }
  }

  /** A difference that is drowned out: the second of two channels with one name agrees with local prices. */
  lemma SharedNameLost(model: string, mode: string, other: string, name: string)
    requires mode != other && mode != "same" && other != "same"
    ensures var local := map["billing_mode" := map[model := Text(mode)]];
            var channels := [Source(name, map["billing_mode" := map[model := Text(other)]]), Source(name, local)];
            && SomeContradicts(PRICING, local, channels, model, "billing_mode")
            && !Survives(PRICING, local, channels, model, "billing_mode")
  {
    var local: Pricing := map["billing_mode" := map[model := Text(mode)]];
    var channels := [Source(name, map["billing_mode" := map[model := Text(other)]]), Source(name, local)];
    assert Contradicts(PRICING, local, channels[0].data, model, "billing_mode");
    forall i | Heard(channels, i)
      ensures i == 1
    {
      assert channels[1].name == channels[0].name;
    }
    forall m, f
      ensures !Differs(PRICING, local, local, m, f)
    {
    }
  }

  /** A contradiction that is dropped: the only channel answers a local billing mode with "same". */
  lemma MarkerTextLost(model: string, mode: string)
    requires mode != "same"
    ensures var local := map["billing_mode" := map[model := Text(mode)]];
            var channels := [Source("up", map["billing_mode" := map[model := SAME]])];
            && SomeContradicts(PRICING, local, channels, model, "billing_mode")
            && !Survives(PRICING, local, channels, model, "billing_mode")
  {
    var local := map["billing_mode" := map[model := Text(mode)]];
    var data: Pricing := map["billing_mode" := map[model := SAME]];
    var channels := [Source("up", data)];
    assert Contradicts(PRICING, local, channels[0].data, model, "billing_mode");
    forall m, f
      ensures !Differs(PRICING, local, data, m, f)
    {
    }
  }
}
