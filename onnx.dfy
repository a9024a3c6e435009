/**
 * The ONNX opset clean-up: a model's `opset_import` list is merged into one
 * entry per domain, carrying the highest version seen for that domain, in
 * the order the domains first appear. An unset or empty domain counts as the
 * default domain "".
 *
 * Loading, checking and saving ONNX files and the quantizer itself are
 * outside the model: the file-based variant receives what loading produced
 * and whether saving succeeded.
 */
module Onnx {
  import opened Wrappers
  import opened Seqs

  /** One `opset_import` entry; the domain may be unset. */
  datatype OpsetId = OpsetId(domain: Option<string>, version: int)

  /** `opset.domain if opset.domain else ""`: an unset or empty domain is the default domain. */
  function Normalize(domain: Option<string>): string
  {
    if domain.Some? && domain.value != "" then domain.value else ""
  }

  /** Only an unset or empty domain becomes the default domain; any other domain is kept. */
  lemma NormalizeDefault(domain: Option<string>)
    ensures Normalize(domain) == "" <==> domain.None? || domain.value == ""
    ensures Normalize(domain) != "" ==> domain == Some(Normalize(domain))
  {
  }

  /** The normalised domain of every entry, in order. */
  function DomainsOf(ops: seq<OpsetId>): (ds: seq<string>)
    ensures |ds| == |ops|
    ensures forall i :: 0 <= i < |ops| ==> ds[i] == Normalize(ops[i].domain)
  {
    seq(|ops|, i requires 0 <= i < |ops| => Normalize(ops[i].domain))
  }

  /** The `opset_dict` built by the first loop: its keys in insertion order, and its values. */
  datatype OpsetTable = OpsetTable(order: seq<string>, versions: map<string, int>)

  /**
   * One step of the first loop: a new domain is inserted at the end, a known
   * domain is overwritten only by a higher version (and keeps its place, as
   * Python dictionaries do).
   */
  function Insert(t: OpsetTable, op: OpsetId): OpsetTable
  {
    var d := Normalize(op.domain);
    if d !in t.versions then OpsetTable(t.order + [d], t.versions[d := op.version])
    else if op.version > t.versions[d] then OpsetTable(t.order, t.versions[d := op.version])
    else t
  }

  lemma InsertNew(t: OpsetTable, op: OpsetId)
    requires Normalize(op.domain) !in t.versions
    ensures Insert(t, op) == OpsetTable(t.order + [Normalize(op.domain)], t.versions[Normalize(op.domain) := op.version])
  {
  }

  lemma InsertHigher(t: OpsetTable, op: OpsetId)
    requires Normalize(op.domain) in t.versions && op.version > t.versions[Normalize(op.domain)]
    ensures Insert(t, op) == OpsetTable(t.order, t.versions[Normalize(op.domain) := op.version])
  {
  }

  lemma InsertLower(t: OpsetTable, op: OpsetId)
    requires Normalize(op.domain) in t.versions && op.version <= t.versions[Normalize(op.domain)]
    ensures Insert(t, op) == t
  {
  }

  /** The dictionary after visiting `ops` front to back. */
  function Collect(ops: seq<OpsetId>): (t: OpsetTable)
    ensures Distinct(t.order)
    ensures forall d :: d in t.versions <==> d in t.order
  {
    if |ops| == 0 then OpsetTable([], map[])
    else Insert(Collect(ops[..|ops| - 1]), ops[|ops| - 1])
  }

  /** Extending the visited prefix by one entry is one more `Insert`. */
  lemma CollectPrefixStep(ops: seq<OpsetId>, i: nat)
    requires i < |ops|
    ensures Collect(ops[..i + 1]) == Insert(Collect(ops[..i]), ops[i])
  {
    assert ops[..i + 1][..i] == ops[..i];
  }

  /** The dictionary's keys are exactly the normalised domains of `ops`. */
  lemma {:induction false} CollectKeys(ops: seq<OpsetId>)
    ensures forall d :: d in Collect(ops).order <==> d in DomainsOf(ops)
  {
    if |ops| > 0 {
      var pre := ops[..|ops| - 1];
      CollectKeys(pre);
      assert DomainsOf(ops) == DomainsOf(pre) + [Normalize(ops[|ops| - 1].domain)];
    }
  }

  /** The entries the last loop adds back: one per key, in key order. */
  function Entries(t: OpsetTable): (r: seq<OpsetId>)
    requires forall d :: d in t.order ==> d in t.versions
    ensures |r| == |t.order|
    ensures forall i :: 0 <= i < |r| ==> r[i] == OpsetId(Some(t.order[i]), t.versions[t.order[i]])
  {
    seq(|t.order|, i requires 0 <= i < |t.order| => OpsetId(Some(t.order[i]), t.versions[t.order[i]]))
  }

  /** Adding the next key's entry extends the prefix of entries by one. */
  lemma EntriesPrefixStep(t: OpsetTable, j: nat)
    requires forall d :: d in t.order ==> d in t.versions
    requires j < |t.order|
    ensures Entries(t)[..j + 1] == Entries(t)[..j] + [OpsetId(Some(t.order[j]), t.versions[t.order[j]])]
  {
    var e := Entries(t);
    assert e[..j + 1] == e[..j] + [e[j]];
  }

  /**
   * The cleaned `opset_import` list: each domain once, and neither a domain
   * lost nor one invented.
   */
  function MergeOpsets(ops: seq<OpsetId>): (r: seq<OpsetId>)
    ensures Distinct(DomainsOf(r))
    ensures forall d :: d in DomainsOf(r) <==> d in DomainsOf(ops)
  {
    EntriesDomains(Collect(ops));
    CollectKeys(ops);
    Entries(Collect(ops))
  }

  /** The entries' domains are the table's keys, in order. */
  lemma EntriesDomains(t: OpsetTable)
    requires forall d :: d in t.order ==> d in t.versions
    ensures DomainsOf(Entries(t)) == t.order
  {
    var r := Entries(t);
    forall i | 0 <= i < |r| ensures DomainsOf(r)[i] == t.order[i] {
      assert r[i].domain == Some(t.order[i]);
    }
  }

  /** The merged list's domains are exactly the dictionary's keys, in order. */
  lemma MergeDomains(ops: seq<OpsetId>)
    ensures DomainsOf(MergeOpsets(ops)) == Collect(ops).order
  {
    EntriesDomains(Collect(ops));
  }

  /** No entry of `ops` has a higher version than the dictionary holds for its domain. */
  predicate Bounds(t: OpsetTable, ops: seq<OpsetId>)
  {
    forall j :: 0 <= j < |ops| ==>
      Normalize(ops[j].domain) in t.versions && ops[j].version <= t.versions[Normalize(ops[j].domain)]
  }

  /** Every version in the dictionary is the version of some entry of `ops` with that domain. */
  predicate Attained(t: OpsetTable, ops: seq<OpsetId>)
  {
    forall d :: d in t.versions ==>
      exists j :: 0 <= j < |ops| && Normalize(ops[j].domain) == d && ops[j].version == t.versions[d]
  }

  /** A step keeps every key and never lowers a version. */
  lemma InsertGrows(t: OpsetTable, op: OpsetId)
    ensures forall d :: d in t.versions ==> d in Insert(t, op).versions && t.versions[d] <= Insert(t, op).versions[d]
    ensures Normalize(op.domain) in Insert(t, op).versions
    ensures op.version <= Insert(t, op).versions[Normalize(op.domain)]
  {
  }

  lemma BoundsStep(t: OpsetTable, pre: seq<OpsetId>, op: OpsetId)
    requires Bounds(t, pre)
    ensures Bounds(Insert(t, op), pre + [op])
  {
    InsertGrows(t, op);
    var ops := pre + [op];
    forall j | 0 <= j < |ops|
      ensures Normalize(ops[j].domain) in Insert(t, op).versions
      ensures ops[j].version <= Insert(t, op).versions[Normalize(ops[j].domain)]
    {
      if j < |pre| {
        assert ops[j] == pre[j];
      }
    }
  }

  lemma AttainedStep(t: OpsetTable, pre: seq<OpsetId>, op: OpsetId)
    requires Attained(t, pre)
    ensures Attained(Insert(t, op), pre + [op])
  {
    var ops := pre + [op];
    var t' := Insert(t, op);
    forall e | e in t'.versions
      ensures exists j :: 0 <= j < |ops| && Normalize(ops[j].domain) == e && ops[j].version == t'.versions[e]
    {
      if e == Normalize(op.domain) && t'.versions[e] == op.version {
        assert ops[|pre|] == op;
      } else {
        assert e in t.versions && t'.versions[e] == t.versions[e];
        var j :| 0 <= j < |pre| && Normalize(pre[j].domain) == e && pre[j].version == t.versions[e];
        assert ops[j] == pre[j];
      }
    }
  }

  /**
   * The dictionary holds every normalised domain of `ops`, with a version at
   * least as high as every entry of that domain and equal to one of them.
   */
  lemma {:induction false} CollectMax(ops: seq<OpsetId>)
    ensures Bounds(Collect(ops), ops) && Attained(Collect(ops), ops)
  {
    if |ops| > 0 {
      var n := |ops| - 1;
      CollectMax(ops[..n]);
      assert ops == ops[..n] + [ops[n]];
      BoundsStep(Collect(ops[..n]), ops[..n], ops[n]);
      AttainedStep(Collect(ops[..n]), ops[..n], ops[n]);
    }
  }

  /**
   * Every merged entry carries the maximum version of its domain: no input
   * entry of that domain has a higher version, and one has exactly it.
   */
  lemma MergeMaxVersion(ops: seq<OpsetId>)
    ensures var r := MergeOpsets(ops);
      && (forall i, j :: 0 <= i < |r| && 0 <= j < |ops| && Normalize(ops[j].domain) == Normalize(r[i].domain) ==>
            ops[j].version <= r[i].version)
      && (forall i :: 0 <= i < |r| ==>
            exists j :: 0 <= j < |ops| && Normalize(ops[j].domain) == Normalize(r[i].domain) && ops[j].version == r[i].version)
  {
    CollectMax(ops);
    var r := MergeOpsets(ops);
    forall i | 0 <= i < |r|
      ensures Normalize(r[i].domain) in Collect(ops).versions
      ensures r[i].version == Collect(ops).versions[Normalize(r[i].domain)]
    {
      MergeEntry(ops, i);
    }
  }

  /** Entry `i` of the merge is key `i` of the dictionary with its version. */
  lemma MergeEntry(ops: seq<OpsetId>, i: int)
    requires 0 <= i < |MergeOpsets(ops)|
    ensures Normalize(MergeOpsets(ops)[i].domain) == Collect(ops).order[i]
    ensures Collect(ops).order[i] in Collect(ops).versions
    ensures MergeOpsets(ops)[i].version == Collect(ops).versions[Collect(ops).order[i]]
  {
    var t := Collect(ops);
    assert MergeOpsets(ops)[i] == OpsetId(Some(t.order[i]), t.versions[t.order[i]]);
  }

  /** Appending a domain keeps the order of keys already present. */
  lemma OrderAppendKnown(order: seq<string>, ds: seq<string>, d: string)
    requires InFirstOccurrenceOrder(order, ds)
    ensures InFirstOccurrenceOrder(order, ds + [d])
  {
    forall x | x in order ensures FirstIndex(ds + [d], x) == FirstIndex(ds, x) {
      FirstIndexAppend(ds, d, x);
    }
  }

  /** A new key appended after a new domain occurs last, so the order is kept. */
  lemma OrderAppendNew(order: seq<string>, ds: seq<string>, d: string)
    requires InFirstOccurrenceOrder(order, ds)
    requires d !in ds
    ensures InFirstOccurrenceOrder(order + [d], ds + [d])
  {
    OrderAppendKnown(order, ds, d);
    var ds' := ds + [d];
    var order' := order + [d];
    assert ds'[..|ds|] == ds;
    FirstIndexUnique(ds', d, |ds|);
    forall i, k | 0 <= i < k < |order'|
      ensures FirstIndex(ds', order'[i]) < FirstIndex(ds', order'[k])
    {
      assert order'[i] == order[i];
      if k < |order| {
        assert order'[k] == order[k];
      }
    }
  }

  lemma OrderStep(t: OpsetTable, ds: seq<string>, op: OpsetId)
    requires InFirstOccurrenceOrder(t.order, ds)
    requires forall d :: d in t.versions <==> d in t.order
    requires forall d :: d in t.order <==> d in ds
    ensures InFirstOccurrenceOrder(Insert(t, op).order, ds + [Normalize(op.domain)])
  {
    var d := Normalize(op.domain);
    if d !in t.versions {
      assert Insert(t, op).order == t.order + [d];
      OrderAppendNew(t.order, ds, d);
    } else {
      assert Insert(t, op).order == t.order;
      OrderAppendKnown(t.order, ds, d);
    }
  }

  lemma {:induction false} CollectFirstOccurrence(ops: seq<OpsetId>)
    ensures InFirstOccurrenceOrder(Collect(ops).order, DomainsOf(ops))
  {
    if |ops| > 0 {
      var n := |ops| - 1;
      CollectFirstOccurrence(ops[..n]);
      CollectKeys(ops[..n]);
      assert DomainsOf(ops) == DomainsOf(ops[..n]) + [Normalize(ops[n].domain)];
      OrderStep(Collect(ops[..n]), DomainsOf(ops[..n]), ops[n]);
    }
  }

  /** Output order is the order in which the domains first occur in the input. */
  lemma MergeFirstOccurrenceOrder(ops: seq<OpsetId>)
    ensures InFirstOccurrenceOrder(DomainsOf(MergeOpsets(ops)), DomainsOf(ops))
  {
    MergeDomains(ops);
    CollectFirstOccurrence(ops);
  }

  /** A list that is already clean: every domain set, and no domain twice. */
  predicate Canonical(ops: seq<OpsetId>)
  {
    (forall i :: 0 <= i < |ops| ==> ops[i].domain.Some?) && Distinct(DomainsOf(ops))
  }

  /** The dictionary lists the domains of `ops` in order, each with its entry's version. */
  predicate Mirrors(t: OpsetTable, ops: seq<OpsetId>)
  {
    && t.order == DomainsOf(ops)
    && forall i :: 0 <= i < |ops| ==> DomainsOf(ops)[i] in t.versions && t.versions[DomainsOf(ops)[i]] == ops[i].version
  }

  lemma MirrorsStep(t: OpsetTable, pre: seq<OpsetId>, op: OpsetId)
    requires Mirrors(t, pre) && forall d :: d in t.versions <==> d in t.order
    requires Normalize(op.domain) !in DomainsOf(pre)
    ensures Mirrors(Insert(t, op), pre + [op])
  {
    var ops := pre + [op];
    assert DomainsOf(ops) == DomainsOf(pre) + [Normalize(op.domain)];
    forall i | 0 <= i < |pre| ensures ops[i] == pre[i] && DomainsOf(ops)[i] == DomainsOf(pre)[i] {
    }
  }

  /** A clean list's prefix is clean, and the next domain is not in it. */
  lemma CanonicalPrefix(ops: seq<OpsetId>, n: nat)
    requires Canonical(ops) && n < |ops|
    ensures Canonical(ops[..n])
    ensures Normalize(ops[n].domain) !in DomainsOf(ops[..n])
  {
    var pre := ops[..n];
    forall i | 0 <= i < n ensures DomainsOf(pre)[i] == DomainsOf(ops)[i] {
    }
    assert DomainsOf(pre) == DomainsOf(ops)[..n];
  }

  lemma {:induction false} CollectCanonical(ops: seq<OpsetId>)
    requires Canonical(ops)
    ensures Mirrors(Collect(ops), ops)
  {
    if |ops| > 0 {
      var n := |ops| - 1;
      CanonicalPrefix(ops, n);
      CollectCanonical(ops[..n]);
      assert ops == ops[..n] + [ops[n]];
      MirrorsStep(Collect(ops[..n]), ops[..n], ops[n]);
    }
  }

  /** Merging a clean list gives it back unchanged. */
  lemma MergeCanonical(ops: seq<OpsetId>)
    requires Canonical(ops)
    ensures MergeOpsets(ops) == ops
  {
    CollectCanonical(ops);
    var r := MergeOpsets(ops);
    forall i | 0 <= i < |ops| ensures r[i] == ops[i] {
      MergeEntry(ops, i);
      assert Some(Normalize(ops[i].domain)) == ops[i].domain;
    }
  }

  /** Cleaning twice is cleaning once. */
  lemma MergeIdempotent(ops: seq<OpsetId>)
    ensures MergeOpsets(MergeOpsets(ops)) == MergeOpsets(ops)
  {
    MergeCanonical(MergeOpsets(ops));
  }

  /**
   * `has_duplicate`: the domain list is longer than its set, which happens
   * exactly when two entries share a normalised domain.
   */
  predicate HasDuplicate(ops: seq<OpsetId>): (b: bool)
    ensures b <==> exists i, j :: 0 <= i < j < |ops| && Normalize(ops[i].domain) == Normalize(ops[j].domain)
  {
    CardinalityDetectsRepeat(DomainsOf(ops));
    |DomainsOf(ops)| != |set d | d in DomainsOf(ops)|
  }

  /** A list is longer than its set exactly when it repeats an element. */
  lemma CardinalityDetectsRepeat(ds: seq<string>)
    ensures |ds| != |set d | d in ds| <==> !Distinct(ds)
  {
    if Distinct(ds) {
      DistinctCardinality(ds);
    } else {
      RepeatCardinality(ds);
    }
  }

  /** The merged list never has a duplicate domain. */
  lemma MergeHasNoDuplicate(ops: seq<OpsetId>)
    ensures !HasDuplicate(MergeOpsets(ops))
  {
    DistinctCardinality(DomainsOf(MergeOpsets(ops)));
  }

  /** What an ONNX file holds, as far as the clean-up is concerned. */
  datatype ModelFile = ModelFile(opsets: seq<OpsetId>, irVersion: int, producerName: string)

  /** A loaded ONNX model; the clean-up rewrites `opsetImport` in place. */
  class ModelProto {
    var opsetImport: seq<OpsetId>
    var irVersion: int
    var producerName: string

    constructor (file: ModelFile)
      ensures ToFile() == file
    {
      opsetImport := file.opsets;
      irVersion := file.irVersion;
      producerName := file.producerName;
    }

    function ToFile(): ModelFile
      reads this
    {
      ModelFile(opsetImport, irVersion, producerName)
    }
  }

  /** The first loop of `clean_onnx_opset`: builds the dictionary front to back. */
  method CollectOpsets(ops: seq<OpsetId>) returns (order: seq<string>, versions: map<string, int>)
    ensures OpsetTable(order, versions) == Collect(ops)
  {
    order := [];
    versions := map[];
    var i := 0;
    while i < |ops|
      invariant 0 <= i <= |ops|
      invariant OpsetTable(order, versions) == Collect(ops[..i])
    {
      ghost var before := OpsetTable(order, versions);
      var opset := ops[i];
      var domain := if opset.domain.Some? && opset.domain.value != "" then opset.domain.value else "";
      assert domain == Normalize(opset.domain);
      if domain !in versions || opset.version > versions[domain] {
        if domain !in versions {
          InsertNew(before, opset);
          order := order + [domain];
        } else {
          InsertHigher(before, opset);
        }
        versions := versions[domain := opset.version];
      } else {
        InsertLower(before, opset);
      }
      CollectPrefixStep(ops, i);
      i := i + 1;
    }
    assert ops[..i] == ops;
  }

  /**
   * `clean_onnx_opset(model)`: collects the dictionary, pops every entry,
   * adds the merged entries back and returns the same model. Nothing but
   * `opsetImport` changes.
   */
  method CleanOpset(model: ModelProto) returns (r: ModelProto)
    modifies model
    ensures r == model
    ensures model.opsetImport == MergeOpsets(old(model.opsetImport))
    ensures model.irVersion == old(model.irVersion) && model.producerName == old(model.producerName)
  {
    var order, versions := CollectOpsets(model.opsetImport);

    while |model.opsetImport| > 0
      invariant model.irVersion == old(model.irVersion) && model.producerName == old(model.producerName)
      decreases |model.opsetImport|
    {
      model.opsetImport := model.opsetImport[..|model.opsetImport| - 1];
    }

    ghost var table := OpsetTable(order, versions);
    assert model.opsetImport == Entries(table)[..0];
    var j := 0;
    while j < |order|
      invariant 0 <= j <= |order|
      invariant model.opsetImport == Entries(table)[..j]
      invariant model.irVersion == old(model.irVersion) && model.producerName == old(model.producerName)
    {
      var domain := order[j];
      EntriesPrefixStep(table, j);
      model.opsetImport := model.opsetImport + [OpsetId(Some(domain), versions[domain])];
      j := j + 1;
    }
    assert Entries(table)[..j] == Entries(table);
    return model;
  }

  /**
   * The file-based `clean_onnx_opset`: loads the model, merges its opsets,
   * saves it, and reports success; a failed load or save reports failure.
   */
  method CleanOnnxOpsetFile(loaded: Option<ModelFile>, saveSucceeds: bool) returns (ok: bool, saved: Option<ModelFile>)
    ensures ok <==> loaded.Some? && saveSucceeds
    ensures saved.Some? <==> ok
    ensures ok ==> saved.value == loaded.value.(opsets := MergeOpsets(loaded.value.opsets))
  {
    if loaded.None? {
      return false, None;
    }
    var model := new ModelProto(loaded.value);
    model := CleanOpset(model);
    if !saveSucceeds {
      return false, None;
    }
    return true, Some(model.ToFile());
  }

  /** Which file the quantizer reads. */
  datatype QuantizeSource = OriginalModel | CleanedModel

  /**
   * The choice made before quantizing: with a duplicate domain the model is
   * cleaned into a new file, which is used when cleaning succeeded; otherwise
   * the original file is quantized.
   */
  method ChooseModelToQuantize(file: ModelFile, saveSucceeds: bool) returns (source: QuantizeSource, cleaned: Option<ModelFile>)
    ensures source == CleanedModel <==> HasDuplicate(file.opsets) && saveSucceeds
    ensures cleaned.Some? <==> source == CleanedModel
    ensures source == CleanedModel ==>
      cleaned.value.opsets == MergeOpsets(file.opsets) && !HasDuplicate(cleaned.value.opsets)
  {
    source, cleaned := OriginalModel, None;
    if HasDuplicate(file.opsets) {
      var ok, saved := CleanOnnxOpsetFile(Some(file), saveSucceeds);
      if ok {
        MergeHasNoDuplicate(file.opsets);
        source, cleaned := CleanedModel, saved;
      }
    }
  }
}
