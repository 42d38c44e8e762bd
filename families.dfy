/** Prometheus gauge families as the exporter fills them, and the one row-emitting
  * pattern nearly every builder follows: for each entity, for each (dimension,
  * field) column, append a sample whose labels are some of the entity's fields
  * followed by the column's dimension label and whose value is the field. */
module Families {
  import opened Records
  import opened Strings

  datatype Sample = Sample(labels: seq<string>, value: Value)

  /** A family as the exposition sees it when the collector yields it. */
  datatype Snapshot = Snapshot(name: string, labelKeys: seq<string>, samples: seq<Sample>)

  /** `GaugeMetricFamily(name, doc, labels=...)`: a name, fixed label keys and a growing list of samples. */
  class MetricFamily {
    const name: string
    const labelKeys: seq<string>
    var samples: seq<Sample>

    constructor (name: string, labelKeys: seq<string>)
      ensures this.name == name && this.labelKeys == labelKeys && samples == []
    {
      this.name := name;
      this.labelKeys := labelKeys;
      samples := [];
    }

    /** `add_metric(labels, value)`: appends one sample, whatever the number of label values. */
    method AddMetric(labels: seq<string>, value: Value)
      modifies this
      ensures samples == old(samples) + [Sample(labels, value)]
    {
      samples := samples + [Sample(labels, value)];
    }

    function Snap(): Snapshot
      reads this
    {
      Snapshot(name, labelKeys, samples)
    }
  }

  /** Every sample carries exactly one value per declared label key. */
  predicate WellLabelled(f: Snapshot)
  {
    forall i :: 0 <= i < |f.samples| ==> |f.samples[i].labels| == |f.labelKeys|
  }

  /** The label pairs `add_metric` keeps: `dict(zip(labelnames, labels))`, which stops at the
    * shorter of the two, so values beyond the declared names are dropped. */
  function Served(keys: seq<string>, values: seq<string>): (pairs: seq<(string, string)>)
    ensures |pairs| == if |keys| <= |values| then |keys| else |values|
    ensures forall i :: 0 <= i < |pairs| ==> pairs[i] == (keys[i], values[i])
  {
    if |keys| == 0 || |values| == 0 then []
    else [(keys[0], values[0])] + Served(keys[1..], values[1..])
  }

  /** In a well-labelled family every sample keeps one pair per declared label name. */
  lemma WellLabelledKeepsAll(f: Snapshot, i: nat)
    requires WellLabelled(f) && i < |f.samples|
    ensures |Served(f.labelKeys, f.samples[i].labels)| == |f.labelKeys| == |f.samples[i].labels|
  {
  }

  // ---------------------------------------------------------------- row engine

  /** Dictionary subscript (missing key raises) or SDK attribute (missing reads `None`). */
  datatype Access = ByKey | ByAttr

  /** Whether a column passes `None` through or replaces it with 0. */
  datatype NullPolicy = PassThrough | ZeroFill

  /** How an entity contributes label values: a field's text; a field's text with `None`
    * read as the empty string; or a field split at a separator into exactly two labels. */
  datatype Key = Field(field: string) | FieldOrEmpty(field: string) | SplitField(field: string, sep: char)

  /** One `add_metric` line of a builder: extra trailing label values (the dimension) and the field it reads. */
  datatype Column = Column(extra: seq<string>, field: string, policy: NullPolicy)

  /** A builder's loop: constant leading labels, the entity's label keys, and its columns in source order. */
  datatype Layout = Layout(prefix: seq<string>, keys: seq<Key>, cols: seq<Column>, access: Access)

  function Read(e: Record, k: string, access: Access): (r: Result<Value>)
    ensures r.Err? <==> access == ByKey && k !in e
    ensures r.Ok? && k in e ==> r.value == e[k]
    ensures r.Ok? && k !in e ==> r.value == Null
  {
    match access
    case ByKey => Subscript(e, k)
    case ByAttr => Ok(Attr(e, k))
  }

  function ApplyPolicy(v: Value, policy: NullPolicy): Value
  {
    match policy
    case PassThrough => v
    case ZeroFill => OrZero(v)
  }

  /** The label values one key contributes. */
  function KeyText(e: Record, key: Key, access: Access): Result<seq<string>>
  {
    match Read(e, key.field, access)
    case Err(f) => Err(f)
    case Ok(v) =>
      match key
      case Field(_) => Ok([Text(v)])
      case FieldOrEmpty(_) => Ok([if v.Null? then "" else Text(v)])
      case SplitField(_, sep) =>
        if !v.Str? then Err(AttributeError)
        else var parts := Split(v.s, sep); if |parts| != 2 then Err(ValueError) else Ok(parts)
  }

  /** The label values an entity contributes, key by key. */
  function KeyLabels(e: Record, keys: seq<Key>, access: Access): Result<seq<string>>
  {
    if |keys| == 0 then Ok([])
    else
      match KeyLabels(e, keys[..|keys| - 1], access)
      case Err(f) => Err(f)
      case Ok(front) =>
        match KeyText(e, keys[|keys| - 1], access)
        case Err(f) => Err(f)
        case Ok(last) => Ok(front + last)
  }

  /** The sample one column contributes, given the entity's leading labels. */
  function Cell(e: Record, lead: seq<string>, col: Column, access: Access): Result<Sample>
  {
    match Read(e, col.field, access)
    case Err(f) => Err(f)
    case Ok(v) => Ok(Sample(lead + col.extra, ApplyPolicy(v, col.policy)))
  }

  /** The samples the columns contribute for one entity, in column order. */
  function Cells(e: Record, lead: seq<string>, cols: seq<Column>, access: Access): Result<seq<Sample>>
  {
    if |cols| == 0 then Ok([])
    else
      match Cells(e, lead, cols[..|cols| - 1], access)
      case Err(f) => Err(f)
      case Ok(front) =>
        match Cell(e, lead, cols[|cols| - 1], access)
        case Err(f) => Err(f)
        case Ok(s) => Ok(front + [s])
  }

  /** One entity's samples. Its label fields are read by the first `add_metric`, so an
    * entity of a layout without columns reads nothing. */
  function EntityRows(layout: Layout, e: Record): Result<seq<Sample>>
  {
    if |layout.cols| == 0 then Ok([])
    else
      match KeyLabels(e, layout.keys, layout.access)
      case Err(f) => Err(f)
      case Ok(lead) => Cells(e, layout.prefix + lead, layout.cols, layout.access)
  }

  /** All samples of a builder loop: entities in order, columns in order within each;
    * the first missing key or bad label aborts. */
  function Rows(layout: Layout, ents: seq<Record>): Result<seq<Sample>>
  {
    if |ents| == 0 then Ok([])
    else
      match Rows(layout, ents[..|ents| - 1])
      case Err(f) => Err(f)
      case Ok(front) =>
        match EntityRows(layout, ents[|ents| - 1])
        case Err(f) => Err(f)
        case Ok(rows) => Ok(front + rows)
  }

  /** A failure in a prefix of the columns is the failure of all of them. */
  lemma {:induction false} CellsPrefixFailure(e: Record, lead: seq<string>, cols: seq<Column>, access: Access, k: nat)
    requires k <= |cols| && Cells(e, lead, cols[..k], access).Err?
    ensures Cells(e, lead, cols, access) == Cells(e, lead, cols[..k], access)
    decreases |cols|
  {
    if k < |cols| {
      assert cols[..|cols| - 1][..k] == cols[..k];
      CellsPrefixFailure(e, lead, cols[..|cols| - 1], access, k);
    } else {
      assert cols[..k] == cols;
    }
  }

  /** The columns up to `k + 1` are those up to `k` and column `k`, the first failure winning. */
  lemma CellsNext(e: Record, lead: seq<string>, cols: seq<Column>, access: Access, k: nat, front: seq<Sample>)
    requires k < |cols| && Cells(e, lead, cols[..k], access) == Ok(front)
    ensures Cells(e, lead, cols[..k + 1], access) ==
              match Cell(e, lead, cols[k], access) case Err(f) => Err(f) case Ok(s) => Ok(front + [s])
  {
    assert cols[..k + 1][..k] == cols[..k];
  }

  /** A failure in a prefix of the entities is the failure of the whole loop. */
  lemma {:induction false} RowsPrefixFailure(layout: Layout, ents: seq<Record>, k: nat)
    requires k <= |ents| && Rows(layout, ents[..k]).Err?
    ensures Rows(layout, ents) == Rows(layout, ents[..k])
    decreases |ents|
  {
    if k < |ents| {
      assert ents[..|ents| - 1][..k] == ents[..k];
      RowsPrefixFailure(layout, ents[..|ents| - 1], k);
    } else {
      assert ents[..k] == ents;
    }
  }

  /** The builder loop: appends the rows of every entity to `fam`, stopping at the first
    * failure with the samples appended so far left in place. */
  method EmitRows(fam: MetricFamily, layout: Layout, ents: seq<Record>) returns (out: Outcome)
    modifies fam
    ensures out.Pass? <==> Rows(layout, ents).Ok?
    ensures out.Pass? ==> fam.samples == old(fam.samples) + Rows(layout, ents).value
    ensures out.Fail? ==> out.error == Rows(layout, ents).error && old(fam.samples) <= fam.samples
  {
    var i := 0;
    while i < |ents|
      invariant 0 <= i <= |ents|
      invariant Rows(layout, ents[..i]).Ok?
      invariant fam.samples == old(fam.samples) + Rows(layout, ents[..i]).value
    {
      assert ents[..i + 1][..i] == ents[..i];
      var step := EmitEntity(fam, layout, ents[i]);
      if step.Fail? {
        RowsPrefixFailure(layout, ents, i + 1);
        return step;
      }
      i := i + 1;
    }
    assert ents[..i] == ents;
    out := Pass;
  }

  /** One iteration of the builder loop: the label fields, then one sample per column. */
  method EmitEntity(fam: MetricFamily, layout: Layout, e: Record) returns (out: Outcome)
    modifies fam
    ensures out.Pass? <==> EntityRows(layout, e).Ok?
    ensures out.Pass? ==> fam.samples == old(fam.samples) + EntityRows(layout, e).value
    ensures out.Fail? ==> out.error == EntityRows(layout, e).error && old(fam.samples) <= fam.samples
  {
    if |layout.cols| == 0 {
      return Pass;
    }
    var lead := KeyLabels(e, layout.keys, layout.access);
    if lead.Err? {
      return Fail(lead.error);
    }
    var j := 0;
    while j < |layout.cols|
      invariant 0 <= j <= |layout.cols|
      invariant Cells(e, layout.prefix + lead.value, layout.cols[..j], layout.access).Ok?
      invariant fam.samples == old(fam.samples) + Cells(e, layout.prefix + lead.value, layout.cols[..j], layout.access).value
    {
      var col := layout.cols[j];
      assert layout.cols[..j + 1][..j] == layout.cols[..j];
      var v := Read(e, col.field, layout.access);
      if v.Err? {
        CellsPrefixFailure(e, layout.prefix + lead.value, layout.cols, layout.access, j + 1);
        return Fail(v.error);
      }
      fam.AddMetric(layout.prefix + lead.value + col.extra, ApplyPolicy(v.value, col.policy));
      j := j + 1;
    }
    assert layout.cols[..j] == layout.cols;
    out := Pass;
  }

  // ---------------------------------------------------------------- what the rows are

  /** An entity contributes one sample per column: its leading labels, the column's extra
    * labels, and the column's field under the column's null policy. */
  lemma {:induction false} CellsShape(e: Record, lead: seq<string>, cols: seq<Column>, access: Access)
    requires Cells(e, lead, cols, access).Ok?
    ensures |Cells(e, lead, cols, access).value| == |cols|
    ensures forall j :: 0 <= j < |cols| ==>
              Read(e, cols[j].field, access).Ok? &&
              Cells(e, lead, cols, access).value[j]
                == Sample(lead + cols[j].extra, ApplyPolicy(Read(e, cols[j].field, access).value, cols[j].policy))
  {
    if |cols| > 0 {
      CellsShape(e, lead, cols[..|cols| - 1], access);
    }
  }

  /** Block arithmetic: sample `j` of entity `i` lies before the last entity's block. */
  lemma BlockIndex(i: nat, j: nat, c: nat, n: nat)
    requires i < n && j < c
    ensures i * c + j < n * c
  {
    assert i + 1 <= n;
    assert (i + 1) * c <= n * c;
  }

  /** The rows of a loop are the entities' rows, one block of `|cols|` samples per entity, in entity order. */
  lemma {:induction false} RowsShape(layout: Layout, ents: seq<Record>)
    requires Rows(layout, ents).Ok?
    ensures |Rows(layout, ents).value| == |ents| * |layout.cols|
    ensures forall i :: 0 <= i < |ents| ==>
              EntityRows(layout, ents[i]).Ok? &&
              |EntityRows(layout, ents[i]).value| == |layout.cols| &&
              (i + 1) * |layout.cols| <= |ents| * |layout.cols| &&
              Rows(layout, ents).value[i * |layout.cols|..(i + 1) * |layout.cols|] == EntityRows(layout, ents[i]).value
  {
    if |ents| > 0 {
      var n, c := |ents|, |layout.cols|;
      var init := ents[..n - 1];
      RowsShape(layout, init);
      var last := ents[n - 1];
      var front := Rows(layout, init).value;
      var rows := EntityRows(layout, last).value;
      EntityRowsLength(layout, last);
      assert Rows(layout, ents).value == front + rows;
      MulStep(n, c);
      forall i | 0 <= i < n
        ensures EntityRows(layout, ents[i]).Ok? && |EntityRows(layout, ents[i]).value| == c
        ensures (i + 1) * c <= n * c
        ensures (front + rows)[i * c..(i + 1) * c] == EntityRows(layout, ents[i]).value
      {
        BlockOfAppend(front, rows, n, c, i);
        if i < n - 1 {
          assert ents[i] == init[i];
        }
      }
    }
  }

  /** Block `i` of a front of `n - 1` blocks followed by one more block of width `c`. */
  lemma BlockOfAppend(front: seq<Sample>, rows: seq<Sample>, n: nat, c: nat, i: nat)
    requires i < n && |front| == (n - 1) * c && |rows| == c
    ensures (i + 1) * c <= n * c
    ensures i < n - 1 ==> (i + 1) * c <= |front| && (front + rows)[i * c..(i + 1) * c] == front[i * c..(i + 1) * c]
    ensures i == n - 1 ==> i * c == |front| && (front + rows)[i * c..(i + 1) * c] == rows
  {
    MulStep(n, c);
    MulStep(i + 1, c);
    if i < n - 1 {
      MulMono(i + 1, n - 1, c);
    }
  }

  lemma MulStep(n: nat, c: nat)
    requires n > 0
    ensures n * c == (n - 1) * c + c
  {
  }

  lemma MulMono(a: nat, b: nat, c: nat)
    requires a <= b
    ensures a * c <= b * c
  {
  }

  lemma EntityRowsLength(layout: Layout, e: Record)
    requires EntityRows(layout, e).Ok?
    ensures |EntityRows(layout, e).value| == |layout.cols|
  {
    if |layout.cols| > 0 {
      CellsShape(e, layout.prefix + KeyLabels(e, layout.keys, layout.access).value, layout.cols, layout.access);
    }
  }

  /** A loop succeeds exactly when every entity's label fields can be read and, for
    * subscripting loops, every column's field is present. */
  lemma {:induction false} RowsSucceed(layout: Layout, ents: seq<Record>)
    ensures Rows(layout, ents).Ok? <==> forall i :: 0 <= i < |ents| ==> EntityRows(layout, ents[i]).Ok?
  {
    if |ents| > 0 {
      var init := ents[..|ents| - 1];
      RowsSucceed(layout, init);
      assert forall i :: 0 <= i < |init| ==> init[i] == ents[i];
    }
  }

  lemma {:induction false} CellsSucceed(e: Record, lead: seq<string>, cols: seq<Column>, access: Access)
    ensures Cells(e, lead, cols, access).Ok? <==> (access == ByAttr || forall j :: 0 <= j < |cols| ==> cols[j].field in e)
  {
    if |cols| > 0 {
      CellsSucceed(e, lead, cols[..|cols| - 1], access);
      if access == ByKey && !(forall j :: 0 <= j < |cols| - 1 ==> cols[j].field in e) {
        var j :| 0 <= j < |cols| - 1 && cols[j].field !in e;
        assert cols[..|cols| - 1][j] == cols[j];
      }
    }
  }

  /** Attribute access never fails on a column: a loop of the SDK kind can fail only on its label keys. */
  lemma AttributeRowsFailOnlyOnKeys(layout: Layout, ents: seq<Record>)
    requires layout.access == ByAttr
    requires forall i :: 0 <= i < |ents| ==> KeyLabels(ents[i], layout.keys, ByAttr).Ok?
    ensures Rows(layout, ents).Ok?
  {
    forall i | 0 <= i < |ents| ensures EntityRows(layout, ents[i]).Ok? {
      if |layout.cols| > 0 {
        CellsSucceed(ents[i], layout.prefix + KeyLabels(ents[i], layout.keys, ByAttr).value, layout.cols, ByAttr);
      }
    }
    RowsSucceed(layout, ents);
  }

  /** Label keys that only read fields always succeed when reading by attribute. */
  lemma {:induction false} PlainKeysReadable(e: Record, keys: seq<Key>)
    requires forall k :: 0 <= k < |keys| ==> !keys[k].SplitField?
    ensures KeyLabels(e, keys, ByAttr).Ok? && |KeyLabels(e, keys, ByAttr).value| == |keys|
  {
    if |keys| > 0 {
      PlainKeysReadable(e, keys[..|keys| - 1]);
    }
  }

  // ---------------------------------------------------------------- one sample at a time

  /** Sample `j` of entity `i`: the layout's prefix, the entity's key labels, the column's
    * extra labels, and the column's field under its null policy. */
  lemma RowAt(layout: Layout, ents: seq<Record>, i: nat, j: nat)
    requires Rows(layout, ents).Ok? && i < |ents| && j < |layout.cols|
    ensures i * |layout.cols| + j < |Rows(layout, ents).value|
    ensures KeyLabels(ents[i], layout.keys, layout.access).Ok?
    ensures Read(ents[i], layout.cols[j].field, layout.access).Ok?
    ensures Rows(layout, ents).value[i * |layout.cols| + j]
              == Sample(layout.prefix + KeyLabels(ents[i], layout.keys, layout.access).value + layout.cols[j].extra,
                        ApplyPolicy(Read(ents[i], layout.cols[j].field, layout.access).value, layout.cols[j].policy))
    decreases |ents|
  {
    var c, n := |layout.cols|, |ents|;
    var init, last := ents[..n - 1], ents[n - 1];
    var front := Rows(layout, init).value;
    var rows := EntityRows(layout, last).value;
    assert Rows(layout, ents).value == front + rows;
    EntityRowsLength(layout, last);
    if i < n - 1 {
      RowAt(layout, init, i, j);
      assert init[i] == ents[i];
    } else {
      RowsLength(layout, init);
      assert i * c + j == |front| + j;
      CellsShape(last, layout.prefix + KeyLabels(last, layout.keys, layout.access).value, layout.cols, layout.access);
    }
  }

  /** A loop yields one sample per (entity, column). */
  lemma {:induction false} RowsLength(layout: Layout, ents: seq<Record>)
    requires Rows(layout, ents).Ok?
    ensures |Rows(layout, ents).value| == |ents| * |layout.cols|
  {
    if |ents| > 0 {
      RowsLength(layout, ents[..|ents| - 1]);
      EntityRowsLength(layout, ents[|ents| - 1]);
      MulStep(|ents|, |layout.cols|);
    }
  }

  /** The number of label values a key contributes. */
  function KeyWidth(keys: seq<Key>): nat
  {
    if |keys| == 0 then 0 else KeyWidth(keys[..|keys| - 1]) + (if keys[|keys| - 1].SplitField? then 2 else 1)
  }

  lemma {:induction false} KeyLabelsWidth(e: Record, keys: seq<Key>, access: Access)
    requires KeyLabels(e, keys, access).Ok?
    ensures |KeyLabels(e, keys, access).value| == KeyWidth(keys)
  {
    if |keys| > 0 {
      KeyLabelsWidth(e, keys[..|keys| - 1], access);
    }
  }

  // ---------------------------------------------------------------- families of a builder

  /** What one builder method declares: the family's name and label keys, and the loop filling it. */
  datatype FamilySpec = FamilySpec(name: string, labelKeys: seq<string>, layout: Layout)

  /** Every sample of the family's loop has as many label values as the family has label keys. */
  predicate Consistent(spec: FamilySpec)
  {
    forall j :: 0 <= j < |spec.layout.cols| ==>
      |spec.layout.prefix| + KeyWidth(spec.layout.keys) + |spec.layout.cols[j].extra| == |spec.labelKeys|
  }

  function Family(spec: FamilySpec, ents: seq<Record>): Result<Snapshot>
  {
    match Rows(spec.layout, ents)
    case Err(f) => Err(f)
    case Ok(rows) => Ok(Snapshot(spec.name, spec.labelKeys, rows))
  }

  /** A builder's families over one entity list, in the order its methods run; the first
    * method that fails aborts the builder. */
  function FamiliesOf(specs: seq<FamilySpec>, ents: seq<Record>): Result<seq<Snapshot>>
  {
    if |specs| == 0 then Ok([])
    else
      match FamiliesOf(specs[..|specs| - 1], ents)
      case Err(f) => Err(f)
      case Ok(front) =>
        match Family(specs[|specs| - 1], ents)
        case Err(f) => Err(f)
        case Ok(last) => Ok(front + [last])
  }

  /** One family filled from the listing, or the failure of the listing or of the loop. */
  function FamilyOver(spec: FamilySpec, listed: Result<seq<Record>>): Result<Snapshot>
  {
    match listed
    case Err(f) => Err(f)
    case Ok(ents) => Family(spec, ents)
  }

  /** A builder's families over the listing, in the order its methods run. */
  function OverEntities(specs: seq<FamilySpec>, listed: Result<seq<Record>>): Result<seq<Snapshot>>
  {
    match listed
    case Err(f) => Err(f)
    case Ok(ents) => FamiliesOf(specs, ents)
  }

  /** The families of a builder come in declaration order, each filled by its own loop. */
  lemma {:induction false} FamiliesOfShape(specs: seq<FamilySpec>, ents: seq<Record>)
    requires FamiliesOf(specs, ents).Ok?
    ensures |FamiliesOf(specs, ents).value| == |specs|
    ensures forall k :: 0 <= k < |specs| ==>
              Rows(specs[k].layout, ents).Ok? &&
              FamiliesOf(specs, ents).value[k] == Snapshot(specs[k].name, specs[k].labelKeys, Rows(specs[k].layout, ents).value)
  {
    if |specs| > 0 {
      FamiliesOfShape(specs[..|specs| - 1], ents);
    }
  }

  /** Family `k` of a successful run is the snapshot of loop `k`'s rows. */
  lemma {:induction false} FamilyAt(specs: seq<FamilySpec>, ents: seq<Record>, k: nat)
    requires FamiliesOf(specs, ents).Ok? && k < |specs|
    ensures |FamiliesOf(specs, ents).value| == |specs| && Rows(specs[k].layout, ents).Ok?
    ensures FamiliesOf(specs, ents).value[k] == Snapshot(specs[k].name, specs[k].labelKeys, Rows(specs[k].layout, ents).value)
  {
    FamiliesOfShape(specs, ents);
  }

  /** A builder succeeds exactly when each of its loops does. */
  lemma {:induction false} FamiliesOfSucceed(specs: seq<FamilySpec>, ents: seq<Record>)
    ensures FamiliesOf(specs, ents).Ok? <==> forall k :: 0 <= k < |specs| ==> Rows(specs[k].layout, ents).Ok?
  {
    if |specs| > 0 {
      FamiliesOfSucceed(specs[..|specs| - 1], ents);
      assert forall k :: 0 <= k < |specs| - 1 ==> specs[..|specs| - 1][k] == specs[k];
    }
  }

  /** One entity passes the loops of all three families. */
  predicate PassesThree(specs: seq<FamilySpec>, e: Record)
    requires |specs| == 3
  {
    EntityRows(specs[0].layout, e).Ok? && EntityRows(specs[1].layout, e).Ok? && EntityRows(specs[2].layout, e).Ok?
  }

  /** Three families all fill exactly when every entity passes all three loops. */
  lemma ThreeFamiliesSucceed(specs: seq<FamilySpec>, ents: seq<Record>)
    requires |specs| == 3
    ensures FamiliesOf(specs, ents).Ok? <==> forall i :: 0 <= i < |ents| ==> PassesThree(specs, ents[i])
  {
    ThreeFamilies(specs, ents);
    RowsSucceed(specs[0].layout, ents);
    RowsSucceed(specs[1].layout, ents);
    RowsSucceed(specs[2].layout, ents);
  }

  /** A family whose declared label keys fit its loop has well-labelled samples. */
  lemma {:induction false} ConsistentFamilyWellLabelled(spec: FamilySpec, ents: seq<Record>)
    requires Consistent(spec) && Rows(spec.layout, ents).Ok?
    ensures WellLabelled(Snapshot(spec.name, spec.labelKeys, Rows(spec.layout, ents).value))
  {
    var layout := spec.layout;
    if |ents| > 0 {
      var last := ents[|ents| - 1];
      ConsistentFamilyWellLabelled(spec, ents[..|ents| - 1]);
      if |layout.cols| > 0 {
        var lead := KeyLabels(last, layout.keys, layout.access).value;
        KeyLabelsWidth(last, layout.keys, layout.access);
        CellsShape(last, layout.prefix + lead, layout.cols, layout.access);
      }
    }
  }

  /** `GaugeMetricFamily(...)` followed by the loop that fills it. */
  method BuildFamily(spec: FamilySpec, ents: seq<Record>) returns (fam: MetricFamily, out: Outcome)
    ensures fresh(fam) && fam.name == spec.name && fam.labelKeys == spec.labelKeys
    ensures out.Pass? <==> Rows(spec.layout, ents).Ok?
    ensures out.Pass? ==> fam.samples == Rows(spec.layout, ents).value
    ensures out.Fail? ==> out.error == Rows(spec.layout, ents).error
  {
    fam := new MetricFamily(spec.name, spec.labelKeys);
    out := EmitRows(fam, spec.layout, ents);
  }

  /** When every family of a builder fills, the builder yields them in order. */
  lemma {:induction false} FamiliesOfAll(specs: seq<FamilySpec>, ents: seq<Record>, snaps: seq<Snapshot>)
    requires |snaps| == |specs| && forall k :: 0 <= k < |specs| ==> Family(specs[k], ents) == Ok(snaps[k])
    ensures FamiliesOf(specs, ents) == Ok(snaps)
  {
    if |specs| > 0 {
      var n := |specs| - 1;
      FamiliesOfAll(specs[..n], ents, snaps[..n]);
      assert snaps[..n] + [snaps[n]] == snaps;
    }
  }

  /** When the families before `k` fill and family `k` fails, the builder fails with its error. */
  lemma {:induction false} FamiliesOfFirstFailure(specs: seq<FamilySpec>, ents: seq<Record>, k: nat)
    requires k < |specs| && (forall j :: 0 <= j < k ==> Family(specs[j], ents).Ok?) && Family(specs[k], ents).Err?
    ensures FamiliesOf(specs, ents) == Err(Family(specs[k], ents).error)
    decreases |specs|
  {
    var n := |specs| - 1;
    if k < n {
      FamiliesOfFirstFailure(specs[..n], ents, k);
    } else {
      FamiliesOfSucceed(specs[..n], ents);
      forall j | 0 <= j < n ensures Rows(specs[..n][j].layout, ents).Ok? {
        assert Family(specs[j], ents).Ok?;
      }
    }
  }

  /** A builder of five methods fails with the first failing family, or yields all five. */
  lemma FiveFamilies(specs: seq<FamilySpec>, ents: seq<Record>)
    requires |specs| == 5
    ensures FamiliesOf(specs, ents) ==
      if Family(specs[0], ents).Err? then Err(Family(specs[0], ents).error)
      else if Family(specs[1], ents).Err? then Err(Family(specs[1], ents).error)
      else if Family(specs[2], ents).Err? then Err(Family(specs[2], ents).error)
      else if Family(specs[3], ents).Err? then Err(Family(specs[3], ents).error)
      else if Family(specs[4], ents).Err? then Err(Family(specs[4], ents).error)
      else Ok([Family(specs[0], ents).value, Family(specs[1], ents).value, Family(specs[2], ents).value,
               Family(specs[3], ents).value, Family(specs[4], ents).value])
  {
    var a, b, c, d, e := Family(specs[0], ents), Family(specs[1], ents), Family(specs[2], ents),
      Family(specs[3], ents), Family(specs[4], ents);
    if a.Err? {
      FamiliesOfFirstFailure(specs, ents, 0);
    } else if b.Err? {
      FamiliesOfFirstFailure(specs, ents, 1);
    } else if c.Err? {
      forall j | 0 <= j < 2 ensures Family(specs[j], ents).Ok? {
        assert j == 0 || j == 1;
      }
      FamiliesOfFirstFailure(specs, ents, 2);
    } else if d.Err? {
      forall j | 0 <= j < 3 ensures Family(specs[j], ents).Ok? {
        assert j == 0 || j == 1 || j == 2;
      }
      FamiliesOfFirstFailure(specs, ents, 3);
    } else if e.Err? {
      forall j | 0 <= j < 4 ensures Family(specs[j], ents).Ok? {
        assert j == 0 || j == 1 || j == 2 || j == 3;
      }
      FamiliesOfFirstFailure(specs, ents, 4);
    } else {
      FamiliesOfAll(specs, ents, [a.value, b.value, c.value, d.value, e.value]);
    }
  }

  /** A builder of three methods fails with the first failing family, or yields all three. */
  lemma ThreeFamilies(specs: seq<FamilySpec>, ents: seq<Record>)
    requires |specs| == 3
    ensures FamiliesOf(specs, ents) ==
      if Family(specs[0], ents).Err? then Err(Family(specs[0], ents).error)
      else if Family(specs[1], ents).Err? then Err(Family(specs[1], ents).error)
      else if Family(specs[2], ents).Err? then Err(Family(specs[2], ents).error)
      else Ok([Family(specs[0], ents).value, Family(specs[1], ents).value, Family(specs[2], ents).value])
  {
    var a, b, c := Family(specs[0], ents), Family(specs[1], ents), Family(specs[2], ents);
    if a.Err? {
      FamiliesOfFirstFailure(specs, ents, 0);
    } else if b.Err? {
      FamiliesOfFirstFailure(specs, ents, 1);
    } else if c.Err? {
      forall j | 0 <= j < 2 ensures Family(specs[j], ents).Ok? {
        assert j == 0 || j == 1;
      }
      FamiliesOfFirstFailure(specs, ents, 2);
    } else {
      FamiliesOfAll(specs, ents, [a.value, b.value, c.value]);
    }
  }

  /** A builder of four methods fails with the first failing family, or yields all four. */
  lemma FourFamilies(specs: seq<FamilySpec>, ents: seq<Record>)
    requires |specs| == 4
    ensures FamiliesOf(specs, ents) ==
      if Family(specs[0], ents).Err? then Err(Family(specs[0], ents).error)
      else if Family(specs[1], ents).Err? then Err(Family(specs[1], ents).error)
      else if Family(specs[2], ents).Err? then Err(Family(specs[2], ents).error)
      else if Family(specs[3], ents).Err? then Err(Family(specs[3], ents).error)
      else Ok([Family(specs[0], ents).value, Family(specs[1], ents).value, Family(specs[2], ents).value,
               Family(specs[3], ents).value])
  {
    var a, b, c, d := Family(specs[0], ents), Family(specs[1], ents), Family(specs[2], ents), Family(specs[3], ents);
    if a.Err? {
      FamiliesOfFirstFailure(specs, ents, 0);
    } else if b.Err? {
      FamiliesOfFirstFailure(specs, ents, 1);
    } else if c.Err? {
      forall j | 0 <= j < 2 ensures Family(specs[j], ents).Ok? {
        assert j == 0 || j == 1;
      }
      FamiliesOfFirstFailure(specs, ents, 2);
    } else if d.Err? {
      forall j | 0 <= j < 3 ensures Family(specs[j], ents).Ok? {
        assert j == 0 || j == 1 || j == 2;
      }
      FamiliesOfFirstFailure(specs, ents, 3);
    } else {
      FamiliesOfAll(specs, ents, [a.value, b.value, c.value, d.value]);
    }
  }

  /** The three families of a successful three-method builder are its three loops' rows. */
  lemma ThreeFamiliesRows(specs: seq<FamilySpec>, ents: seq<Record>)
    requires |specs| == 3 && FamiliesOf(specs, ents).Ok?
    ensures |FamiliesOf(specs, ents).value| == 3
    ensures Rows(specs[0].layout, ents).Ok? && FamiliesOf(specs, ents).value[0].samples == Rows(specs[0].layout, ents).value
    ensures Rows(specs[1].layout, ents).Ok? && FamiliesOf(specs, ents).value[1].samples == Rows(specs[1].layout, ents).value
    ensures Rows(specs[2].layout, ents).Ok? && FamiliesOf(specs, ents).value[2].samples == Rows(specs[2].layout, ents).value
  {
    ThreeFamilies(specs, ents);
  }

  /** A layout without label keys over one entity is its columns read with the constant prefix. */
  lemma KeylessRows(layout: Layout, e: Record)
    requires layout.keys == []
    ensures Rows(layout, [e]) == Cells(e, layout.prefix, layout.cols, layout.access)
  {
    assert [e][..0] == [] && [e][0] == e;
    assert Rows(layout, []) == Ok([]);
    assert KeyLabels(e, [], layout.access) == Ok([]);
    assert layout.prefix + [] == layout.prefix;
    if |layout.cols| > 0 {
      var c := Cells(e, layout.prefix, layout.cols, layout.access);
      assert EntityRows(layout, e) == c;
      var empty: seq<Sample> := [];
      assert Rows(layout, [e][..0]) == Ok(empty);
      if c.Ok? {
        assert empty + c.value == c.value;
        assert Rows(layout, [e]) == Ok(empty + c.value);
      } else {
        assert Rows(layout, [e]) == Err(c.error);
      }
    } else {
      var empty: seq<Sample> := [];
      assert empty + empty == empty;
      assert Rows(layout, [e]) == Ok(empty + empty);
    }
  }

  /** A single column contributes its one cell. */
  lemma SingleCell(e: Record, lead: seq<string>, col: Column, access: Access)
    ensures Cells(e, lead, [col], access) == (match Cell(e, lead, col, access) case Err(f) => Err(f) case Ok(s) => Ok([s]))
  {
    assert [col][..0] == [] && [col][0] == col;
    assert Cells(e, lead, [], access) == Ok([]);
    var c := Cell(e, lead, col, access);
    if c.Ok? {
      assert [] + [c.value] == [c.value];
    }
  }

  /** Families created once by a builder's constructor and filled again by each run: every
    * family keeps its earlier samples and receives the new ones after them. */
  function Grown(before: seq<seq<Sample>>, fs: seq<Snapshot>): (r: seq<Snapshot>)
    ensures |r| == |fs|
    ensures forall k :: 0 <= k < |fs| && k < |before| ==> r[k] == Snapshot(fs[k].name, fs[k].labelKeys, before[k] + fs[k].samples)
  {
    seq(|fs|, k requires 0 <= k < |fs| => Snapshot(fs[k].name, fs[k].labelKeys, (if k < |before| then before[k] else []) + fs[k].samples))
  }

  /** Growing empty families yields the new families themselves. */
  lemma GrownFromEmpty(before: seq<seq<Sample>>, fs: seq<Snapshot>)
    requires |before| == |fs| && forall k :: 0 <= k < |before| ==> before[k] == []
    ensures Grown(before, fs) == fs
  {
    var g := Grown(before, fs);
    forall k | 0 <= k < |fs| ensures g[k] == fs[k] {
      assert before[k] + fs[k].samples == fs[k].samples;
    }
  }

  // ---------------------------------------------------------------- consecutive builders

  /** Two runs one after the other: both outputs, or the first failure. */
  function Chain(a: Result<seq<Snapshot>>, b: Result<seq<Snapshot>>): Result<seq<Snapshot>>
  {
    match a
    case Err(f) => Err(f)
    case Ok(u) => match b case Err(f) => Err(f) case Ok(v) => Ok(u + v)
  }

  /** Consecutive runs: everything they yield in order, or the first failure. */
  function Joined(parts: seq<Result<seq<Snapshot>>>): Result<seq<Snapshot>>
  {
    if |parts| == 0 then Ok([]) else Chain(Joined(parts[..|parts| - 1]), parts[|parts| - 1])
  }

  lemma ChainAssoc(a: Result<seq<Snapshot>>, b: Result<seq<Snapshot>>, c: Result<seq<Snapshot>>)
    ensures Chain(Chain(a, b), c) == Chain(a, Chain(b, c))
  {
    if a.Ok? && b.Ok? && c.Ok? {
      assert a.value + b.value + c.value == a.value + (b.value + c.value);
    }
  }

  /** Joining two runs of parts is joining the first, then the second. */
  lemma {:induction false} JoinedAppend(p: seq<Result<seq<Snapshot>>>, q: seq<Result<seq<Snapshot>>>)
    ensures Joined(p + q) == Chain(Joined(p), Joined(q))
    decreases |q|
  {
    if |q| == 0 {
      assert p + q == p;
      if Joined(p).Ok? {
        assert Joined(p).value + [] == Joined(p).value;
      }
    } else {
      var n := |q| - 1;
      assert (p + q)[..|p + q| - 1] == p + q[..n];
      assert (p + q)[|p + q| - 1] == q[n];
      JoinedAppend(p, q[..n]);
      ChainAssoc(Joined(p), Joined(q[..n]), q[n]);
    }
  }

  /** A failing part ends the run with its own failure when everything before it succeeded. */
  lemma {:induction false} JoinedPrefixFailure(parts: seq<Result<seq<Snapshot>>>, k: nat)
    requires 0 < k <= |parts| && Joined(parts[..k - 1]).Ok? && parts[k - 1].Err?
    ensures Joined(parts) == Err(parts[k - 1].error)
    decreases |parts|
  {
    var n := |parts| - 1;
    if k - 1 < n {
      assert parts[..n][..k - 1] == parts[..k - 1];
      JoinedPrefixFailure(parts[..n], k);
    } else {
      assert parts[..n] == parts[..k - 1];
    }
  }

  /** A run of parts finishes exactly when every part does. */
  lemma {:induction false} JoinedOk(parts: seq<Result<seq<Snapshot>>>)
    ensures Joined(parts).Ok? <==> forall i :: 0 <= i < |parts| ==> parts[i].Ok?
    decreases |parts|
  {
    if |parts| > 0 {
      var n := |parts| - 1;
      JoinedOk(parts[..n]);
      assert forall i :: 0 <= i < n ==> parts[..n][i] == parts[i];
    }
  }

  /** One failing part makes the whole run fail. */
  lemma {:induction false} JoinedFails(parts: seq<Result<seq<Snapshot>>>, k: nat)
    requires k < |parts| && parts[k].Err?
    ensures Joined(parts).Err?
    decreases |parts|
  {
    var n := |parts| - 1;
    if k < n {
      assert parts[..n][k] == parts[k];
      JoinedFails(parts[..n], k);
    }
  }
}
