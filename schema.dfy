/**
 * The value shapes of the user-operation protocol and their validators: the
 * `0x`-prefix predicates behind `hexString` and `hashString`, and the
 * `UserOperationSchema` / `UnsignedUserOperationSchema` object schemas.
 */
module Schema {
  import opened Wrappers
  import opened Js
  import Regex

  /** `/^0x.*$/`, the pattern of `hexString`. */
  const HexPattern: Regex.Pattern :=
    [Regex.Begin, Regex.Once(Regex.Literal('0')), Regex.Once(Regex.Literal('x')), Regex.Many(Regex.Dot), Regex.End]

  /** `/^0x.*$/` again: `hashString` writes out its own copy of the pattern. */
  const HashPattern: Regex.Pattern :=
    [Regex.Begin, Regex.Once(Regex.Literal('0')), Regex.Once(Regex.Literal('x')), Regex.Many(Regex.Dot), Regex.End]

  predicate IsHexString(s: string) {
    Regex.Test(HexPattern, s)
  }

  predicate IsHashString(s: string) {
    Regex.Test(HashPattern, s)
  }

  /**
   * What the pattern accepts, stated directly: the literal prefix `0x` at
   * position 0 and no line terminator after it. Neither the length nor the
   * characters after the prefix are constrained.
   */
  predicate HasHexPrefix(s: string) {
    && |s| >= 2 && s[0] == '0' && s[1] == 'x'
    && forall k | 2 <= k < |s| :: !Regex.IsLineTerminator(s[k])
  }

  lemma HexStringIsPrefixCheck(s: string)
    ensures IsHexString(s) <==> HasHexPrefix(s)
  {
    var p := HexPattern;
    var rest := [Regex.Many(Regex.Dot), Regex.End];
    assert p[1..][1..][1..] == rest;
    Regex.AnchoredTest(p, s);
    assert Regex.MatchAt(p, s, 0) <==> Regex.MatchAt(p[1..], s, 0);
    if |s| >= 2 && s[0] == '0' && s[1] == 'x' {
      assert Regex.MatchAt(p[1..], s, 0) <==> Regex.MatchAt(rest, s, 2);
      Regex.DotStarEnd(s, 2);
    }
  }

  lemma HashStringIsHexString(s: string)
    ensures IsHashString(s) <==> IsHexString(s)
  {
  }

  /** The check is shallow: case-sensitive, anchored at position 0, and blind to length and digits. */
  lemma ShallowCheckExamples()
    ensures IsHexString("0x") && IsHexString("0xzz")
    ensures !IsHexString("0X12") && !IsHexString("12") && !IsHexString(" 0x1") && !IsHexString("0x1\n")
  {
    HexStringIsPrefixCheck("0x");
    HexStringIsPrefixCheck("0xzz");
    HexStringIsPrefixCheck("0X12");
    HexStringIsPrefixCheck("12");
    HexStringIsPrefixCheck(" 0x1");
    HexStringIsPrefixCheck("0x1\n");
    assert Regex.IsLineTerminator("0x1\n"[3]);
  }

  /** The object shape of `UnsignedUserOperationSchema`: the user operation without its signature. */
  datatype UnsignedUserOperation = UnsignedUserOperation(
    sender: string,
    nonce: int,
    initCode: string,
    callData: string,
    callGasLimit: int,
    verificationGasLimit: int,
    preVerificationGas: int,
    maxFeePerGas: int,
    maxPriorityFeePerGas: int,
    paymasterAndData: string)

  /** The object shape of `UserOperationSchema`: eleven required fields. */
  datatype UserOperation = UserOperation(
    sender: string,
    nonce: int,
    initCode: string,
    callData: string,
    callGasLimit: int,
    verificationGasLimit: int,
    preVerificationGas: int,
    maxFeePerGas: int,
    maxPriorityFeePerGas: int,
    paymasterAndData: string,
    signature: string)

  /** The field validators of the unsigned schema: four `hexString` fields; the other six are numbers by type. */
  predicate ValidUnsigned(u: UnsignedUserOperation) {
    && IsHexString(u.sender)
    && IsHexString(u.initCode)
    && IsHexString(u.callData)
    && IsHexString(u.paymasterAndData)
  }

  /** The field validators of the full schema: the four `hexString` fields and the `hashString` signature. */
  predicate ValidUserOperation(op: UserOperation) {
    && IsHexString(op.sender)
    && IsHexString(op.initCode)
    && IsHexString(op.callData)
    && IsHexString(op.paymasterAndData)
    && IsHashString(op.signature)
  }

  /** `{ ...u, signature }`: the unsigned operation with a signature attached. */
  function AddSignature(u: UnsignedUserOperation, signature: string): (op: UserOperation)
    ensures op.signature == signature && OmitSignature(op) == u
  {
    UserOperation(u.sender, u.nonce, u.initCode, u.callData, u.callGasLimit, u.verificationGasLimit,
                  u.preVerificationGas, u.maxFeePerGas, u.maxPriorityFeePerGas, u.paymasterAndData, signature)
  }

  /** The operation with its signature omitted, as `.omit({ signature: true })` does. */
  function OmitSignature(op: UserOperation): UnsignedUserOperation {
    UnsignedUserOperation(op.sender, op.nonce, op.initCode, op.callData, op.callGasLimit, op.verificationGasLimit,
                          op.preVerificationGas, op.maxFeePerGas, op.maxPriorityFeePerGas, op.paymasterAndData)
  }

  /** An operation is its unsigned part with its own signature attached. */
  lemma SignatureRoundTrip(op: UserOperation)
    ensures AddSignature(OmitSignature(op), op.signature) == op
  {
  }

  /** A signed operation is valid exactly when its unsigned part is valid and the signature passes `hashString`. */
  lemma AddSignatureValid(u: UnsignedUserOperation, signature: string)
    ensures ValidUserOperation(AddSignature(u, signature)) <==> ValidUnsigned(u) && IsHashString(signature)
  {
  }

  const UserOperationKeys: set<string> := {
    "sender", "nonce", "initCode", "callData", "callGasLimit", "verificationGasLimit",
    "preVerificationGas", "maxFeePerGas", "maxPriorityFeePerGas", "paymasterAndData", "signature"
  }

  const UnsignedKeys: set<string> := UserOperationKeys - {"signature"}

  /** The object an unsigned operation is sent as. */
  function UnsignedToObject(u: UnsignedUserOperation): (o: Object)
    ensures o.Keys == UnsignedKeys
  {
    map[
      "sender" := Str(u.sender),
      "nonce" := Num(u.nonce),
      "initCode" := Str(u.initCode),
      "callData" := Str(u.callData),
      "callGasLimit" := Num(u.callGasLimit),
      "verificationGasLimit" := Num(u.verificationGasLimit),
      "preVerificationGas" := Num(u.preVerificationGas),
      "maxFeePerGas" := Num(u.maxFeePerGas),
      "maxPriorityFeePerGas" := Num(u.maxPriorityFeePerGas),
      "paymasterAndData" := Str(u.paymasterAndData)
    ]
  }

  /** The object a user operation is sent as. */
  function ToObject(op: UserOperation): (o: Object)
    ensures o.Keys == UserOperationKeys
  {
    map[
      "sender" := Str(op.sender),
      "nonce" := Num(op.nonce),
      "initCode" := Str(op.initCode),
      "callData" := Str(op.callData),
      "callGasLimit" := Num(op.callGasLimit),
      "verificationGasLimit" := Num(op.verificationGasLimit),
      "preVerificationGas" := Num(op.preVerificationGas),
      "maxFeePerGas" := Num(op.maxFeePerGas),
      "maxPriorityFeePerGas" := Num(op.maxPriorityFeePerGas),
      "paymasterAndData" := Str(op.paymasterAndData),
      "signature" := Str(op.signature)
    ]
  }

  /** On the wire, `{ ...u, signature }` is the unsigned object with one key added. */
  lemma AddSignatureAddsOneKey(u: UnsignedUserOperation, signature: string)
    ensures ToObject(AddSignature(u, signature)) == UnsignedToObject(u)["signature" := Str(signature)]
  {
  }

  function HexField(o: Object, key: string): Option<string> {
    if key in o && o[key].Str? && IsHexString(o[key].s) then Some(o[key].s) else None
  }

  function HashField(o: Object, key: string): Option<string> {
    if key in o && o[key].Str? && IsHashString(o[key].s) then Some(o[key].s) else None
  }

  function NumberField(o: Object, key: string): Option<int> {
    if key in o && o[key].Num? then Some(o[key].n) else None
  }

  /** Parsing with `UnsignedUserOperationSchema`: every field required, keys outside the schema dropped. */
  function ParseUnsigned(o: Object): (r: Option<UnsignedUserOperation>)
    ensures r.Some? ==> ValidUnsigned(r.value)
  {
    var sender :- HexField(o, "sender");
    var nonce :- NumberField(o, "nonce");
    var initCode :- HexField(o, "initCode");
    var callData :- HexField(o, "callData");
    var callGasLimit :- NumberField(o, "callGasLimit");
    var verificationGasLimit :- NumberField(o, "verificationGasLimit");
    var preVerificationGas :- NumberField(o, "preVerificationGas");
    var maxFeePerGas :- NumberField(o, "maxFeePerGas");
    var maxPriorityFeePerGas :- NumberField(o, "maxPriorityFeePerGas");
    var paymasterAndData :- HexField(o, "paymasterAndData");
    Some(UnsignedUserOperation(sender, nonce, initCode, callData, callGasLimit, verificationGasLimit,
                               preVerificationGas, maxFeePerGas, maxPriorityFeePerGas, paymasterAndData))
  }

  /** Parsing with `UserOperationSchema`. */
  function ParseUserOperation(o: Object): (r: Option<UserOperation>)
    ensures r.Some? ==> ValidUserOperation(r.value)
  {
    var sender :- HexField(o, "sender");
    var nonce :- NumberField(o, "nonce");
    var initCode :- HexField(o, "initCode");
    var callData :- HexField(o, "callData");
    var callGasLimit :- NumberField(o, "callGasLimit");
    var verificationGasLimit :- NumberField(o, "verificationGasLimit");
    var preVerificationGas :- NumberField(o, "preVerificationGas");
    var maxFeePerGas :- NumberField(o, "maxFeePerGas");
    var maxPriorityFeePerGas :- NumberField(o, "maxPriorityFeePerGas");
    var paymasterAndData :- HexField(o, "paymasterAndData");
    var signature :- HashField(o, "signature");
    Some(UserOperation(sender, nonce, initCode, callData, callGasLimit, verificationGasLimit,
                       preVerificationGas, maxFeePerGas, maxPriorityFeePerGas, paymasterAndData, signature))
  }

  /** Parsing what an operation is sent as gives the operation back exactly when it is valid. */
  lemma ParseRoundTrip(op: UserOperation)
    ensures ParseUserOperation(ToObject(op)) == if ValidUserOperation(op) then Some(op) else None
  {
    var o := ToObject(op);
    assert o["sender"] == Str(op.sender) && o["initCode"] == Str(op.initCode);
    assert o["callData"] == Str(op.callData) && o["paymasterAndData"] == Str(op.paymasterAndData);
    assert o["signature"] == Str(op.signature);
  }

  lemma ParseUnsignedRoundTrip(u: UnsignedUserOperation)
    ensures ParseUnsigned(UnsignedToObject(u)) == if ValidUnsigned(u) then Some(u) else None
  {
    var o := UnsignedToObject(u);
    assert o["sender"] == Str(u.sender) && o["initCode"] == Str(u.initCode);
    assert o["callData"] == Str(u.callData) && o["paymasterAndData"] == Str(u.paymasterAndData);
  }

  /** A parsed operation is read field for field from the object: every schema key is present and holds the sent value. */
  lemma ParseReadsEveryField(o: Object)
    ensures ParseUserOperation(o).Some? ==>
      UserOperationKeys <= o.Keys && forall k | k in UserOperationKeys :: o[k] == ToObject(ParseUserOperation(o).value)[k]
  {
    if ParseUserOperation(o).Some? {
      var op := ParseUserOperation(o).value;
      assert o["sender"] == Str(op.sender) && o["initCode"] == Str(op.initCode);
      assert o["callData"] == Str(op.callData) && o["paymasterAndData"] == Str(op.paymasterAndData);
      assert o["signature"] == Str(op.signature);
    }
  }

  /** The same for the unsigned schema: a parsed unsigned operation is read field for field, with or without a signature key. */
  lemma ParseUnsignedReadsEveryField(o: Object)
    ensures ParseUnsigned(o).Some? ==>
      UnsignedKeys <= o.Keys && forall k | k in UnsignedKeys :: o[k] == UnsignedToObject(ParseUnsigned(o).value)[k]
  {
    if ParseUnsigned(o).Some? {
      var u := ParseUnsigned(o).value;
      assert o["sender"] == Str(u.sender) && o["initCode"] == Str(u.initCode);
      assert o["callData"] == Str(u.callData) && o["paymasterAndData"] == Str(u.paymasterAndData);
    }
  }

  /** Keys outside `UserOperationSchema` are dropped: objects that agree on the schema keys parse alike under both schemas. */
  lemma ParseIgnoresOtherKeys(o: Object, o': Object)
    requires forall k | k in UserOperationKeys :: (k in o <==> k in o') && (k in o ==> o[k] == o'[k])
    ensures ParseUserOperation(o) == ParseUserOperation(o')
    ensures ParseUnsigned(o) == ParseUnsigned(o')
  {
  }

  /** Keys outside `UnsignedUserOperationSchema`, `signature` among them, are dropped by the unsigned parse. */
  lemma ParseUnsignedIgnoresOtherKeys(o: Object, o': Object)
    requires forall k | k in UnsignedKeys :: (k in o <==> k in o') && (k in o ==> o[k] == o'[k])
    ensures ParseUnsigned(o) == ParseUnsigned(o')
  {
  }

  /** Any object carrying a valid operation's fields, whatever else it carries, is accepted as that operation. */
  lemma AcceptsObjectWithValidFields(op: UserOperation, o: Object)
    requires ValidUserOperation(op)
    requires forall k | k in UserOperationKeys :: k in o && o[k] == ToObject(op)[k]
    ensures ParseUserOperation(o) == Some(op)
  {
    ParseIgnoresOtherKeys(o, ToObject(op));
    ParseRoundTrip(op);
  }

  /** Any object carrying a valid unsigned operation's fields, whatever else it carries, is accepted as that unsigned operation. */
  lemma AcceptsObjectWithValidUnsignedFields(u: UnsignedUserOperation, o: Object)
    requires ValidUnsigned(u)
    requires forall k | k in UnsignedKeys :: k in o && o[k] == UnsignedToObject(u)[k]
    ensures ParseUnsigned(o) == Some(u)
  {
    ParseUnsignedIgnoresOtherKeys(o, UnsignedToObject(u));
    ParseUnsignedRoundTrip(u);
  }

  /** `.required()`: an object missing any schema field is rejected. */
  lemma MissingFieldRejected(o: Object, key: string)
    requires key !in o
    ensures key in UserOperationKeys ==> ParseUserOperation(o) == None
    ensures key in UnsignedKeys ==> ParseUnsigned(o) == None
  {
  }

  /**
   * The unsigned schema is the full schema without `signature`: an object
   * passes the full schema exactly when it passes the unsigned one and its
   * signature passes `hashString`, and the result is then the unsigned
   * operation with that signature attached.
   */
  lemma UnsignedIsFullWithoutSignature(o: Object)
    ensures ParseUserOperation(o) ==
      if ParseUnsigned(o).Some? && HashField(o, "signature").Some?
      then Some(AddSignature(ParseUnsigned(o).value, HashField(o, "signature").value))
      else None
  {
  }

  /** Adding any `hashString`-valid signature to a valid unsigned operation yields a valid user operation. */
  lemma SigningValidUnsigned(o: Object, signature: string)
    requires ParseUnsigned(o).Some? && IsHashString(signature)
    ensures ParseUserOperation(o["signature" := Str(signature)]) == Some(AddSignature(ParseUnsigned(o).value, signature))
  {
  }
}
