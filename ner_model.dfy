/** Entity mapping of the named-entity extractor (server/features/ner/model.py).

    The tokeniser, the encoder and the classifier's argmax are left out: the
    mapping starts from the label index chosen for every token, the
    special-token mask and the character offsets, row by row. */
module Ner {
  import opened Wrappers
  import opened Filters

  /** The labels of the token classifier. */
  datatype Label = O | BMisc | IMisc | BPer | IPer | BOrg | IOrg | BLoc | ILoc

  /** An entity: its label (`entityLabel`, since `label` is a reserved word
      here) and the character span of its token. */
  datatype Entity = Entity(entityLabel: Label, start: int, end: int)

  /** A token's start and end character offsets. */
  datatype Offset = Offset(start: int, end: int)

  /** The two ways the mapping fails: `zip(..., strict=True)` over sequences
      of different lengths, and a label index the label map does not hold. */
  datatype NerError = LengthMismatch | UnknownLabel(index: int)

  /** `not is_special_token`: a mask value of zero marks an ordinary token. */
  predicate IsRegularToken(isSpecialToken: int)
  {
    isSpecialToken == 0
  }

  /** The generator of `convert_indices_to_entity_map` from position `i` on:
      the strict zip stops with an error at the first position where one
      sequence ends before the others, and a regular token whose index has no
      label stops it with an error at that token. */
  function ConvertFrom(labels: map<int, Label>, indices: seq<int>, mask: seq<int>, offsets: seq<Offset>, i: nat)
    : Result<seq<Entity>, NerError>
    decreases |mask| - i
  {
    if i >= |indices| || i >= |mask| || i >= |offsets| then
      if |indices| == |mask| == |offsets| then Success([]) else Failure(LengthMismatch)
    else if !IsRegularToken(mask[i]) then
      ConvertFrom(labels, indices, mask, offsets, i + 1)
    else if indices[i] !in labels then
      Failure(UnknownLabel(indices[i]))
    else
      match ConvertFrom(labels, indices, mask, offsets, i + 1)
      case Success(entities) =>
        Success([Entity(labels[indices[i]], offsets[i].start, offsets[i].end)] + entities)
      case Failure(e) => Failure(e)
  }

  /** `convert_indices_to_entity_map` for one row. */
  function ConvertIndicesToEntityMap(labels: map<int, Label>, indices: seq<int>, mask: seq<int>, offsets: seq<Offset>)
    : Result<seq<Entity>, NerError>
  {
    ConvertFrom(labels, indices, mask, offsets, 0)
  }

  /** The row maps without error exactly when the three sequences have one
      length and every regular token's index has a label. */
  lemma {:induction false} ConvertFromSucceedsIff(labels: map<int, Label>, indices: seq<int>, mask: seq<int>, offsets: seq<Offset>, i: nat)
    requires i <= |indices| && i <= |mask| && i <= |offsets|
    ensures ConvertFrom(labels, indices, mask, offsets, i).Success? <==>
      && |indices| == |mask| == |offsets|
      && forall j :: i <= j < |mask| && IsRegularToken(mask[j]) ==> indices[j] in labels
    decreases |mask| - i
  {
    if i < |indices| && i < |mask| && i < |offsets| {
      ConvertFromSucceedsIff(labels, indices, mask, offsets, i + 1);
    }
  }

  lemma ConvertSucceedsIff(labels: map<int, Label>, indices: seq<int>, mask: seq<int>, offsets: seq<Offset>)
    ensures ConvertIndicesToEntityMap(labels, indices, mask, offsets).Success? <==>
      && |indices| == |mask| == |offsets|
      && forall j :: 0 <= j < |mask| && IsRegularToken(mask[j]) ==> indices[j] in labels
  {
    ConvertFromSucceedsIff(labels, indices, mask, offsets, 0);
  }

  /** On success, the k-th entity comes from the k-th regular token: its
      label is the label of that token's index, its span that token's offsets. */
  lemma {:induction false} ConvertFromFollowsTokens(labels: map<int, Label>, indices: seq<int>, mask: seq<int>, offsets: seq<Offset>, i: nat)
    requires i <= |mask|
    requires ConvertFrom(labels, indices, mask, offsets, i).Success?
    ensures var entities := ConvertFrom(labels, indices, mask, offsets, i).value;
            var ps := KeptFrom(mask, IsRegularToken, i);
            && |indices| == |mask| == |offsets|
            && |entities| == |ps|
            && forall k :: 0 <= k < |entities| ==>
                 && indices[ps[k]] in labels
                 && entities[k] == Entity(labels[indices[ps[k]]], offsets[ps[k]].start, offsets[ps[k]].end)
    decreases |mask| - i
  {
    if i < |indices| && i < |mask| && i < |offsets| {
      var next := ConvertFrom(labels, indices, mask, offsets, i + 1);
      assert next.Success?;
      ConvertFromFollowsTokens(labels, indices, mask, offsets, i + 1);
      var ps, ps' := KeptFrom(mask, IsRegularToken, i), KeptFrom(mask, IsRegularToken, i + 1);
      var entities, rest := ConvertFrom(labels, indices, mask, offsets, i).value, next.value;
      if IsRegularToken(mask[i]) {
        ConsStep(labels, indices, mask, offsets, i, ps, ps', entities, rest);
      } else {
        assert ps == ps' && entities == rest;
      }
    }
  }

  /** The inductive step of ConvertFromFollowsTokens at a regular token. */
  lemma ConsStep(labels: map<int, Label>, indices: seq<int>, mask: seq<int>, offsets: seq<Offset>, i: nat,
                 ps: seq<nat>, ps': seq<nat>, entities: seq<Entity>, rest: seq<Entity>)
    requires i < |indices| == |mask| == |offsets|
    requires indices[i] in labels
    requires ps == [i] + ps'
    requires entities == [Entity(labels[indices[i]], offsets[i].start, offsets[i].end)] + rest
    requires |rest| == |ps'|
    requires forall k :: 0 <= k < |ps'| ==> ps'[k] < |indices|
    requires forall k :: 0 <= k < |rest| ==>
               && indices[ps'[k]] in labels
               && rest[k] == Entity(labels[indices[ps'[k]]], offsets[ps'[k]].start, offsets[ps'[k]].end)
    ensures |entities| == |ps|
    ensures forall k :: 0 <= k < |entities| ==>
              && ps[k] < |indices|
              && indices[ps[k]] in labels
              && entities[k] == Entity(labels[indices[ps[k]]], offsets[ps[k]].start, offsets[ps[k]].end)
  {
  }

  /** Exactly one entity per regular token, in token order, each labelled and
      placed from its own token's position; special tokens produce nothing. */
  lemma ConvertFollowsTokens(labels: map<int, Label>, indices: seq<int>, mask: seq<int>, offsets: seq<Offset>)
    requires ConvertIndicesToEntityMap(labels, indices, mask, offsets).Success?
    ensures var entities := ConvertIndicesToEntityMap(labels, indices, mask, offsets).value;
            var ps := Kept(mask, IsRegularToken);
            && |indices| == |mask| == |offsets|
            && |entities| == |ps|
            && (forall k, l :: 0 <= k < l < |ps| ==> ps[k] < ps[l])
            && (forall j :: 0 <= j < |mask| && IsRegularToken(mask[j]) ==> j in ps)
            && forall k :: 0 <= k < |entities| ==>
                 && ps[k] < |mask| && IsRegularToken(mask[ps[k]])
                 && indices[ps[k]] in labels
                 && entities[k] == Entity(labels[indices[ps[k]]], offsets[ps[k]].start, offsets[ps[k]].end)
  {
    ConvertFromFollowsTokens(labels, indices, mask, offsets, 0);
    KeptFromIncreasing(mask, IsRegularToken, 0);
    KeptFromComplete(mask, IsRegularToken, 0);
  }

  /** The batch zip of `extract` from row `i` on: one entity mapping per row,
      or an error when the three batch arrays have different numbers of rows. */
  function ExtractFrom(labels: map<int, Label>, indicesBatch: seq<seq<int>>, maskBatch: seq<seq<int>>,
                       offsetsBatch: seq<seq<Offset>>, i: nat)
    : (r: Result<seq<Result<seq<Entity>, NerError>>, NerError>)
    requires i <= |indicesBatch| && i <= |maskBatch| && i <= |offsetsBatch|
    ensures r.Success? <==> |indicesBatch| == |maskBatch| == |offsetsBatch|
    ensures r.Success? ==>
      && |r.value| == |indicesBatch| - i
      && forall k :: 0 <= k < |r.value| ==>
           r.value[k] == ConvertIndicesToEntityMap(labels, indicesBatch[i + k], maskBatch[i + k], offsetsBatch[i + k])
    decreases |maskBatch| - i
  {
    if i == |indicesBatch| || i == |maskBatch| || i == |offsetsBatch| then
      if |indicesBatch| == |maskBatch| == |offsetsBatch| then Success([]) else Failure(LengthMismatch)
    else
      var row := ConvertIndicesToEntityMap(labels, indicesBatch[i], maskBatch[i], offsetsBatch[i]);
      match ExtractFrom(labels, indicesBatch, maskBatch, offsetsBatch, i + 1)
      case Success(rows) => Success([row] + rows)
      case Failure(e) => Failure(e)
  }

  /** `extract` after the classifier: the rows stay aligned with the input
      texts, row k being the entity mapping of the k-th row of each array. */
  function Extract(labels: map<int, Label>, indicesBatch: seq<seq<int>>, maskBatch: seq<seq<int>>,
                   offsetsBatch: seq<seq<Offset>>)
    : (r: Result<seq<Result<seq<Entity>, NerError>>, NerError>)
    ensures r.Success? <==> |indicesBatch| == |maskBatch| == |offsetsBatch|
    ensures r.Success? ==>
      && |r.value| == |indicesBatch|
      && forall k :: 0 <= k < |r.value| ==>
           r.value[k] == ConvertIndicesToEntityMap(labels, indicesBatch[k], maskBatch[k], offsetsBatch[k])
  {
    ExtractFrom(labels, indicesBatch, maskBatch, offsetsBatch, 0)
  }
}
