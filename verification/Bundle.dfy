// The private test bundle and its schema validation.
module Bundle {
  import opened Base
  import opened Hex
  import Utf8

  const MAX_VECTOR_COUNT: nat := 128
  const MAX_SELECTION_COUNT: nat := 32
  const CALL_GAS_CAP: nat := 2_000_000
  const MAX_RESPONSE_BYTES: nat := 8_192
  const MAX_BUNDLE_BYTES: nat := 65_536
  const COSTON2_CHAIN_ID: int := 114

  datatype Kind =
    | EthCallEquals | EthCallReverts | Erc165SupportsInterface | CodeSizeRange | StorageAtEquals
    | UnknownKind(name: string)

  datatype Vector = Vector(
    id: string, kind: Kind, calldata: string, caller: string, value: string, expectedReturn: string,
    expectedRevertSelector: string, expectedRevertPattern: string, interfaceId: string,
    expected: Option<bool>, minBytes: int, maxBytes: int, slot: string, expectedValue: string)

  datatype WorkProofBundle = WorkProofBundle(
    formatVersion: int, templateId: string, templateVersion: string, targetChainId: int,
    publicSpecHash: string, vectorCount: int, selectionCount: int, gasLimitPerCall: int,
    timeoutMsPerCall: int, maxResponseBytes: int, vectors: seq<Vector>)

  // Go's len of a string.
  function ByteLength(s: string): nat { |Utf8.Encode(s)| }

  // --- the schema's patterns ---

  predicate IsBytes(s: string) { |s| % 2 == 0 && |s| >= 2 && IsHexOf(s, |s| - 2) }
  predicate IsBytes32(s: string) { IsHexOf(s, 64) }
  predicate IsBytes4(s: string) { IsHexOf(s, 8) }
  predicate IsAddress(s: string) { IsHexOf(s, 40) }
  predicate IsUint256Hex(s: string) { 3 <= |s| <= 66 && IsHexOf(s, |s| - 2) }

  predicate IsNumeral(s: string) { |s| > 0 && forall i | 0 <= i < |s| :: IsDigit(s[i]) }

  // vX.Y.Z
  predicate IsVersion(s: string) {
    exists i, j | 0 <= i < |s| && 0 <= j < |s| ::
      1 < i < j && s[0] == 'v' && s[i] == '.' && s[j] == '.'
      && IsNumeral(s[1..i]) && IsNumeral(s[i + 1..j]) && IsNumeral(s[j + 1..])
  }

  predicate NoCallFields(v: Vector) {
    v.calldata == "" && v.caller == "" && v.value == "" && v.expectedReturn == ""
    && v.expectedRevertSelector == "" && v.expectedRevertPattern == ""
  }

  predicate NoSizeFields(v: Vector) { v.minBytes == 0 && v.maxBytes == 0 }
  predicate NoStorageFields(v: Vector) { v.slot == "" && v.expectedValue == "" }
  predicate NoErc165Fields(v: Vector) { v.interfaceId == "" && v.expected.None? }

  // Vector.validate: required fields well-formed, every other field absent.
  predicate VectorOk(v: Vector) {
    && 1 <= ByteLength(v.id) <= 96
    && match v.kind
       case EthCallEquals =>
         && IsBytes(v.calldata) && IsAddress(v.caller) && IsUint256Hex(v.value) && IsBytes(v.expectedReturn)
         && v.expectedRevertSelector == "" && v.expectedRevertPattern == ""
         && NoErc165Fields(v) && NoSizeFields(v) && NoStorageFields(v)
       case EthCallReverts =>
         && IsBytes(v.calldata) && IsAddress(v.caller) && IsUint256Hex(v.value)
         && (v.expectedRevertSelector == "" || IsBytes4(v.expectedRevertSelector))
         && ByteLength(v.expectedRevertPattern) <= 128 && v.expectedReturn == ""
         && NoErc165Fields(v) && NoSizeFields(v) && NoStorageFields(v)
       case Erc165SupportsInterface =>
         && IsBytes4(v.interfaceId) && v.expected.Some?
         && NoCallFields(v) && NoSizeFields(v) && NoStorageFields(v)
       case CodeSizeRange =>
         && 1 <= v.minBytes && 1 <= v.maxBytes && v.minBytes <= v.maxBytes
         && NoCallFields(v) && NoErc165Fields(v) && NoStorageFields(v)
       case StorageAtEquals =>
         && IsBytes32(v.slot) && IsBytes32(v.expectedValue)
         && NoCallFields(v) && NoErc165Fields(v) && NoSizeFields(v)
       case UnknownKind(_) => false
  }

  // --- Validate ---

  datatype Problem =
    | BadFormatVersion | BadTemplateId | BadTemplateVersion | BadTargetChain | BadSpecHash
    | BadVectorCount | BadSelectionCount | SelectionExceedsVectors | BadGasLimit | BadTimeout
    | BadResponseCap | VectorsLengthMismatch | BadVector(index: nat) | DuplicateId(index: nat)

  function HeaderProblem(b: WorkProofBundle): Option<Problem> {
    if b.formatVersion != 1 then Some(BadFormatVersion)
    else if ByteLength(b.templateId) < 1 || ByteLength(b.templateId) > 64 then Some(BadTemplateId)
    else if !IsVersion(b.templateVersion) then Some(BadTemplateVersion)
    else if b.targetChainId != COSTON2_CHAIN_ID then Some(BadTargetChain)
    else if !IsBytes32(b.publicSpecHash) then Some(BadSpecHash)
    else if b.vectorCount < 1 || b.vectorCount > MAX_VECTOR_COUNT then Some(BadVectorCount)
    else if b.selectionCount < 1 || b.selectionCount > MAX_SELECTION_COUNT then Some(BadSelectionCount)
    else if b.selectionCount > b.vectorCount then Some(SelectionExceedsVectors)
    else if b.gasLimitPerCall < 21_000 || b.gasLimitPerCall > 5_000_000 || b.gasLimitPerCall > CALL_GAS_CAP
    then Some(BadGasLimit)
    else if b.timeoutMsPerCall < 100 || b.timeoutMsPerCall > 30_000 then Some(BadTimeout)
    else if b.maxResponseBytes < 1 || b.maxResponseBytes > 65_536 || b.maxResponseBytes > MAX_RESPONSE_BYTES
    then Some(BadResponseCap)
    else if |b.vectors| != b.vectorCount then Some(VectorsLengthMismatch)
    else None
  }

  // The ranges the schema and the engine's caps leave.
  predicate HeaderOk(b: WorkProofBundle) {
    && b.formatVersion == 1 && 1 <= ByteLength(b.templateId) <= 64 && IsVersion(b.templateVersion)
    && b.targetChainId == COSTON2_CHAIN_ID && IsBytes32(b.publicSpecHash)
    && 1 <= b.selectionCount <= Min(MAX_SELECTION_COUNT, b.vectorCount) && b.vectorCount <= MAX_VECTOR_COUNT
    && 21_000 <= b.gasLimitPerCall <= CALL_GAS_CAP && 100 <= b.timeoutMsPerCall <= 30_000
    && 1 <= b.maxResponseBytes <= MAX_RESPONSE_BYTES && |b.vectors| == b.vectorCount
  }

  // What a valid bundle is, without saying in which order it is checked.
  predicate BundleOk(b: WorkProofBundle) {
    && HeaderOk(b)
    && (forall i | 0 <= i < |b.vectors| :: VectorOk(b.vectors[i]))
    && (forall i, j | 0 <= i < j < |b.vectors| :: b.vectors[i].id != b.vectors[j].id)
  }

  // The facts selection and counting rely on.
  lemma ValidBundleBounds(b: WorkProofBundle)
    requires BundleOk(b)
    ensures 1 <= b.selectionCount <= MAX_SELECTION_COUNT && b.selectionCount <= |b.vectors| <= MAX_VECTOR_COUNT
  {
  }

  // The index the first bad vector has, if any, and why.
  predicate FirstProblem(b: WorkProofBundle, p: Problem) {
    match p
    case BadVector(k) =>
      && HeaderProblem(b).None? && k < |b.vectors| && !VectorOk(b.vectors[k])
      && PrefixOk(b.vectors, k)
    case DuplicateId(k) =>
      && HeaderProblem(b).None? && k < |b.vectors| && VectorOk(b.vectors[k])
      && PrefixOk(b.vectors, k) && exists i | 0 <= i < k :: b.vectors[i].id == b.vectors[k].id
    case _ => HeaderProblem(b) == Some(p)
  }

  predicate PrefixOk(vs: seq<Vector>, k: nat)
    requires k <= |vs|
  {
    && (forall i | 0 <= i < k :: VectorOk(vs[i]))
    && (forall i, j | 0 <= i < j < k :: vs[i].id != vs[j].id)
  }

  ghost predicate Seen(seenIds: map<string, bool>, vs: seq<Vector>, k: nat)
    requires k <= |vs|
  {
    forall id: string :: id in seenIds <==> exists t | 0 <= t < k :: vs[t].id == id
  }

  lemma PrefixExtends(vs: seq<Vector>, k: nat, seenIds: map<string, bool>)
    requires k < |vs| && PrefixOk(vs, k) && Seen(seenIds, vs, k)
    requires VectorOk(vs[k]) && vs[k].id !in seenIds
    ensures PrefixOk(vs, k + 1) && Seen(seenIds[vs[k].id := true], vs, k + 1)
  {
    var seen' := seenIds[vs[k].id := true];
    forall id: string ensures id in seen' <==> exists t | 0 <= t < k + 1 :: vs[t].id == id {
      if id in seenIds {
        var t :| 0 <= t < k && vs[t].id == id;
        assert vs[t].id == id;
      }
    }
  }

  // One vector's guards as they run: its fields well formed, then no others present.
  method CheckVector(v: Vector) returns (ok: bool)
    ensures ok <==> VectorOk(v)
  {
    if ByteLength(v.id) < 1 || ByteLength(v.id) > 96 {
      return false;
    }
    match v.kind {
      case EthCallEquals =>
        if !IsBytes(v.calldata) || !IsAddress(v.caller) || !IsUint256Hex(v.value) || !IsBytes(v.expectedReturn) {
          return false;
        }
        if v.expectedRevertSelector != "" || v.expectedRevertPattern != "" || v.interfaceId != ""
           || v.expected != None || v.minBytes != 0 || v.maxBytes != 0 || v.slot != "" || v.expectedValue != "" {
          return false;
        }
      case EthCallReverts =>
        if !IsBytes(v.calldata) || !IsAddress(v.caller) || !IsUint256Hex(v.value) {
          return false;
        }
        if v.expectedRevertSelector != "" && !IsBytes4(v.expectedRevertSelector) {
          return false;
        }
        if ByteLength(v.expectedRevertPattern) > 128 {
          return false;
        }
        if v.expectedReturn != "" || v.interfaceId != "" || v.expected != None || v.minBytes != 0 || v.maxBytes != 0
           || v.slot != "" || v.expectedValue != "" {
          return false;
        }
      case Erc165SupportsInterface =>
        if !IsBytes4(v.interfaceId) || v.expected == None {
          return false;
        }
        if v.calldata != "" || v.caller != "" || v.value != "" || v.expectedReturn != ""
           || v.expectedRevertSelector != "" || v.expectedRevertPattern != ""
           || v.minBytes != 0 || v.maxBytes != 0 || v.slot != "" || v.expectedValue != "" {
          return false;
        }
      case CodeSizeRange =>
        if v.minBytes < 1 || v.maxBytes < 1 || v.minBytes > v.maxBytes {
          return false;
        }
        if v.calldata != "" || v.caller != "" || v.value != "" || v.expectedReturn != ""
           || v.expectedRevertSelector != "" || v.expectedRevertPattern != "" || v.interfaceId != ""
           || v.expected != None || v.slot != "" || v.expectedValue != "" {
          return false;
        }
      case StorageAtEquals =>
        if !IsBytes32(v.slot) || !IsBytes32(v.expectedValue) {
          return false;
        }
        if v.calldata != "" || v.caller != "" || v.value != "" || v.expectedReturn != ""
           || v.expectedRevertSelector != "" || v.expectedRevertPattern != "" || v.interfaceId != ""
           || v.expected != None || v.minBytes != 0 || v.maxBytes != 0 {
          return false;
        }
      case UnknownKind(_) =>
        return false;
    }
    return true;
  }

  method ValidateVectors(vs: seq<Vector>) returns (problem: Option<Problem>)
    ensures problem.None? <==> PrefixOk(vs, |vs|)
    ensures problem.Some? ==>
              && (problem.value.BadVector? || problem.value.DuplicateId?)
              && var k := problem.value.index;
                 && k < |vs| && PrefixOk(vs, k)
                 && (problem.value.BadVector? ==> !VectorOk(vs[k]))
                 && (problem.value.DuplicateId? ==>
                       VectorOk(vs[k]) && exists i | 0 <= i < k :: vs[i].id == vs[k].id)
  {
    var seenIds: map<string, bool> := map[];
    for i := 0 to |vs|
      invariant PrefixOk(vs, i) && Seen(seenIds, vs, i)
    {
      var ok := CheckVector(vs[i]);
      if !ok {
        return Some(BadVector(i));
      }
      if vs[i].id in seenIds {
        return Some(DuplicateId(i));
      }
      PrefixExtends(vs, i, seenIds);
      seenIds := seenIds[vs[i].id := true];
    }
    return None;
  }

  // The header's guards as they run.
  method CheckHeader(b: WorkProofBundle) returns (problem: Option<Problem>)
    ensures problem == HeaderProblem(b)
    ensures problem.None? <==> HeaderOk(b)
  {
    if b.formatVersion != 1 {
      return Some(BadFormatVersion);
    }
    if ByteLength(b.templateId) < 1 || ByteLength(b.templateId) > 64 {
      return Some(BadTemplateId);
    }
    if !IsVersion(b.templateVersion) {
      return Some(BadTemplateVersion);
    }
    if b.targetChainId != COSTON2_CHAIN_ID {
      return Some(BadTargetChain);
    }
    if !IsBytes32(b.publicSpecHash) {
      return Some(BadSpecHash);
    }
    if b.vectorCount < 1 || b.vectorCount > MAX_VECTOR_COUNT {
      return Some(BadVectorCount);
    }
    if b.selectionCount < 1 || b.selectionCount > MAX_SELECTION_COUNT {
      return Some(BadSelectionCount);
    }
    if b.selectionCount > b.vectorCount {
      return Some(SelectionExceedsVectors);
    }
    if b.gasLimitPerCall < 21_000 || b.gasLimitPerCall > 5_000_000 || b.gasLimitPerCall > CALL_GAS_CAP {
      return Some(BadGasLimit);
    }
    if b.timeoutMsPerCall < 100 || b.timeoutMsPerCall > 30_000 {
      return Some(BadTimeout);
    }
    if b.maxResponseBytes < 1 || b.maxResponseBytes > 65_536 || b.maxResponseBytes > MAX_RESPONSE_BYTES {
      return Some(BadResponseCap);
    }
    if |b.vectors| != b.vectorCount {
      return Some(VectorsLengthMismatch);
    }
    return None;
  }

  method Validate(b: WorkProofBundle) returns (problem: Option<Problem>)
    ensures problem.None? <==> BundleOk(b)
    ensures problem.Some? ==> FirstProblem(b, problem.value)
  {
    var header := CheckHeader(b);
    if header.Some? {
      return header;
    }
    problem := ValidateVectors(b.vectors);
    assert PrefixOk(b.vectors, |b.vectors|) <==> BundleOk(b);
  }
}
