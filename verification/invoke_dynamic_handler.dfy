/** The `invokedynamic` instruction handler. Each `invokedynamic` site is
    rewritten into a reflective static call to a synthetic trampoline method.
    The trampoline's descriptor is the site's own descriptor with a marker
    object parameter and eight placeholder primitive parameters prepended; the
    placeholders spell the site's ordinal in base 4, so that sites with equal
    descriptors still get trampolines with distinct descriptors. */
module InvokeDynamic {
  import opened JvmTypes
  import opened TextUtil

  // ---------------------------------------------------------------------------
  // Placeholder encoding of the site ordinal

  /** The placeholder type for each base-4 digit value 0, 1, 2, 3. */
  const PlaceholderTypes: seq<JType> := [Int, Char, Short, Byte]
  const PlaceholderCount: nat := 8
  /** 4^8: how many ordinals the placeholders can tell apart. */
  const Capacity: nat := 65536

  function Pow4(k: nat): (r: nat)
    ensures r > 0
  {
    if k == 0 then 1 else 4 * Pow4(k - 1)
  }

  /** The `count` lowest base-4 digits of `index`, least significant first,
      each written as its placeholder type. */
  function PlaceholderDigits(index: nat, count: nat): (r: seq<JType>)
    ensures |r| == count
  {
    if count == 0 then [] else [PlaceholderTypes[index % 4]] + PlaceholderDigits(index / 4, count - 1)
  }

  function TypesForIndex(index: nat): seq<JType>
  {
    PlaceholderDigits(index, PlaceholderCount)
  }

  /** The digit value a placeholder type stands for (its position in PlaceholderTypes). */
  function DigitValue(t: JType): nat
  {
    match t
    case Char => 1
    case Short => 2
    case Byte => 3
    case _ => 0
  }

  /** Reads a placeholder list back as a number, least significant digit first. */
  function DecodeIndex(ts: seq<JType>): nat
  {
    if ts == [] then 0 else DigitValue(ts[0]) + 4 * DecodeIndex(ts[1..])
  }

  lemma MulAtLeastOnce(d: int, k: int)
    requires d > 0 && k >= 1
    ensures d * k >= d
  {
    assert d * k == d + d * (k - 1);
  }

  lemma DivUnique(n: int, d: int, q: int, r: int)
    requires d > 0 && 0 <= r < d && n == d * q + r
    ensures n / d == q
  {
    var q0, r0 := n / d, n % d;
    assert n == d * q0 + r0;
    if q > q0 {
      MulAtLeastOnce(d, q - q0);
      assert false;
    } else if q < q0 {
      MulAtLeastOnce(d, q0 - q);
      assert false;
    }
  }

  lemma DivDiv(n: nat, a: nat, b: nat)
    requires a > 0 && b > 0
    ensures (n / a) / b == n / (a * b)
  {
    var q, r2, r1 := (n / a) / b, (n / a) % b, n % a;
    assert n / a == b * q + r2;
    assert n == a * (n / a) + r1;
    assert a * (b * q + r2) == (a * b) * q + a * r2;
    assert n == (a * b) * q + (a * r2 + r1);
    assert a * r2 <= a * (b - 1) by {
      if r2 < b - 1 {
        MulAtLeastOnce(a, b - 1 - r2);
        assert a * (b - 1) == a * r2 + a * (b - 1 - r2);
      }
    }
    assert a * (b - 1) == a * b - a;
    DivUnique(n, a * b, q, a * r2 + r1);
  }

  /** Digit i of the encoding is the i-th base-4 digit of the index. */
  lemma {:induction false} PlaceholderDigitAt(index: nat, count: nat, i: nat)
    requires i < count
    ensures PlaceholderDigits(index, count)[i] == PlaceholderTypes[(index / Pow4(i)) % 4]
    decreases i
  {
    if i > 0 {
      PlaceholderDigitAt(index / 4, count - 1, i - 1);
      DivDiv(index, 4, Pow4(i - 1));
    }
  }

  lemma TypesForIndexShape(index: nat)
    ensures |TypesForIndex(index)| == PlaceholderCount
    ensures forall i :: 0 <= i < PlaceholderCount ==>
      TypesForIndex(index)[i] == PlaceholderTypes[(index / Pow4(i)) % 4]
    ensures forall i :: 0 <= i < PlaceholderCount ==> TypesForIndex(index)[i] in PlaceholderTypes
    ensures forall i :: 0 <= i < PlaceholderCount ==>
      IsFieldType(TypesForIndex(index)[i]) && Size(TypesForIndex(index)[i]) == 1
  {
    forall i | 0 <= i < PlaceholderCount
      ensures TypesForIndex(index)[i] == PlaceholderTypes[(index / Pow4(i)) % 4]
    {
      PlaceholderDigitAt(index, PlaceholderCount, i);
    }
  }

  /** Decoding the placeholders gives back every ordinal they can represent. */
  lemma {:induction false} PlaceholderDigitsDecode(index: nat, count: nat)
    requires index < Pow4(count)
    ensures DecodeIndex(PlaceholderDigits(index, count)) == index
  {
    if count > 0 {
      PlaceholderDigitsDecode(index / 4, count - 1);
      var ds := PlaceholderDigits(index, count);
      assert ds[1..] == PlaceholderDigits(index / 4, count - 1);
      assert DigitValue(PlaceholderTypes[index % 4]) == index % 4;
    }
  }

  /** Two ordinals below 4^8 never get the same placeholder types. */
  lemma TypesForIndexInjective(i: nat, j: nat)
    requires i < Capacity && j < Capacity
    requires TypesForIndex(i) == TypesForIndex(j)
    ensures i == j
  {
    assert Pow4(PlaceholderCount) == Capacity;
    PlaceholderDigitsDecode(i, PlaceholderCount);
    PlaceholderDigitsDecode(j, PlaceholderCount);
  }

  lemma {:induction false} PlaceholderDigitsPeriodic(index: nat, count: nat)
    ensures PlaceholderDigits(index + Pow4(count), count) == PlaceholderDigits(index, count)
  {
    if count > 0 {
      var p := Pow4(count - 1);
      assert (index + 4 * p) % 4 == index % 4;
      assert (index + 4 * p) / 4 == index / 4 + p;
      PlaceholderDigitsPeriodic(index / 4, count - 1);
    }
  }

  /** Nothing guards the capacity: ordinal n + 65536 reuses the placeholders of n. */
  lemma TypesForIndexWrapsAround(index: nat)
    ensures TypesForIndex(index + Capacity) == TypesForIndex(index)
  {
    assert Pow4(PlaceholderCount) == Capacity;
    PlaceholderDigitsPeriodic(index, PlaceholderCount);
  }

  // ---------------------------------------------------------------------------
  // Trampoline descriptors

  /** The marker type that opens every trampoline's parameter list. */
  function Marker(nativeDir: string): JType
  {
    Object(nativeDir + "/InvokeDynamicPlaceholder")
  }

  /** `nativeDir` is usable inside an internal class name. */
  predicate IsValidNativeDir(nativeDir: string)
  {
    ';' !in nativeDir
  }

  lemma MarkerIsFieldType(nativeDir: string)
    requires IsValidNativeDir(nativeDir)
    ensures IsFieldType(Marker(nativeDir)) && Size(Marker(nativeDir)) == 1
  {
    assert ';' !in "/InvokeDynamicPlaceholder";
  }

  /** The prepended parameters of the trampoline for ordinal `index`. */
  function TrampolinePrefix(nativeDir: string, index: nat): seq<JType>
  {
    [Marker(nativeDir)] + TypesForIndex(index)
  }

  /** The descriptor both the call site and the trampoline are built with. */
  function TrampolineDescriptor(nativeDir: string, index: nat, desc: string): string
    requires IsMethodDescriptor(desc)
  {
    InvokeDynamicHandler.ModifyMethodDescriptor(TrampolinePrefix(nativeDir, index), desc)
  }

  lemma TrampolineDescriptorShape(nativeDir: string, index: nat, desc: string)
    requires IsValidNativeDir(nativeDir) && IsMethodDescriptor(desc)
    ensures ParseMethodDescriptor(TrampolineDescriptor(nativeDir, index, desc)) ==
      Some(MethodType(TrampolinePrefix(nativeDir, index) + ParseMethodDescriptor(desc).value.args,
                      ParseMethodDescriptor(desc).value.ret))
  {
    MarkerIsFieldType(nativeDir);
    TypesForIndexShape(index);
  }

  /** Trampolines of ordinals below 4^8 have distinct descriptors: equal
      descriptors mean the same ordinal and the same site descriptor. */
  lemma TrampolineDescriptorsDistinct(nativeDir: string, i: nat, j: nat, desc1: string, desc2: string)
    requires IsValidNativeDir(nativeDir) && i < Capacity && j < Capacity
    requires IsMethodDescriptor(desc1) && IsMethodDescriptor(desc2)
    requires TrampolineDescriptor(nativeDir, i, desc1) == TrampolineDescriptor(nativeDir, j, desc2)
    ensures i == j && desc1 == desc2
  {
    TrampolineDescriptorShape(nativeDir, i, desc1);
    TrampolineDescriptorShape(nativeDir, j, desc2);
    var m1, m2 := ParseMethodDescriptor(desc1).value, ParseMethodDescriptor(desc2).value;
    var a1, a2 := TrampolinePrefix(nativeDir, i) + m1.args, TrampolinePrefix(nativeDir, j) + m2.args;
    assert a1 == a2;
    assert a1[1..1 + PlaceholderCount] == TypesForIndex(i);
    assert a2[1..1 + PlaceholderCount] == TypesForIndex(j);
    TypesForIndexInjective(i, j);
    assert m1.args == a1[1 + PlaceholderCount..] == a2[1 + PlaceholderCount..] == m2.args;
    MethodDescriptorParseSound(desc1);
    MethodDescriptorParseSound(desc2);
  }

  // ---------------------------------------------------------------------------
  // Operand-stack layout of the call site

  /** Slots taken by the types, summed. */
  function SumSizes(ts: seq<JType>): nat
  {
    if ts == [] then 0 else SumSizes(ts[..|ts| - 1]) + Size(ts[|ts| - 1])
  }

  lemma {:induction false} SumSizesAppend(a: seq<JType>, b: seq<JType>)
    ensures SumSizes(a + b) == SumSizes(a) + SumSizes(b)
    decreases |b|
  {
    if b != [] {
      assert (a + b)[..|a + b| - 1] == a + b[..|b| - 1];
      SumSizesAppend(a, b[..|b| - 1]);
    } else {
      assert a + b == a;
    }
  }

  /** Each prefix of the arguments takes the slots of the one before plus its last argument's. */
  lemma SumSizesPrefixStep(ts: seq<JType>)
    ensures forall i :: 0 <= i < |ts| ==> SumSizes(ts[..i + 1]) == SumSizes(ts[..i]) + Size(ts[i])
  {
    forall i | 0 <= i < |ts| ensures SumSizes(ts[..i + 1]) == SumSizes(ts[..i]) + Size(ts[i]) {
      assert ts[..i + 1][..i] == ts[..i];
    }
  }

  /** One slot per argument when no argument is a long or a double. */
  lemma {:induction false} SumSizesSingleSlots(ts: seq<JType>)
    requires forall i :: 0 <= i < |ts| ==> Size(ts[i]) == 1
    ensures SumSizes(ts) == |ts|
  {
    if ts != [] {
      SumSizesSingleSlots(ts[..|ts| - 1]);
    }
  }

  /** Each argument takes one or two slots. */
  lemma {:induction false} SumSizesBounds(ts: seq<JType>)
    requires forall i :: 0 <= i < |ts| ==> IsFieldType(ts[i])
    ensures |ts| <= SumSizes(ts) <= 2 * |ts|
  {
    if ts != [] {
      SumSizesBounds(ts[..|ts| - 1]);
    }
  }

  /** The stack offset of each argument: -1 minus the slots of the arguments before it. */
  function ArgOffsets(args: seq<JType>): (r: seq<int>)
    ensures |r| == |args|
  {
    seq(|args|, i requires 0 <= i < |args| => -1 - SumSizes(args[..i]))
  }

  /** The offsets start at -1 and each one lies the previous argument's size below it. */
  lemma ArgOffsetsStep(args: seq<JType>)
    ensures |args| > 0 ==> ArgOffsets(args)[0] == -1
    ensures forall i :: 0 <= i < |args| - 1 ==>
      ArgOffsets(args)[i + 1] == ArgOffsets(args)[i] - Size(args[i])
  {
    assert |args| > 0 ==> args[..0] == [];
    SumSizesPrefixStep(args);
  }

  /** The reflective argument list: the marker's null, one 0 per placeholder,
      then one snippet per real argument at that argument's stack offset. */
  function ReflectiveArgs(argSnippet: (nat, int) -> string, args: seq<JType>, argOffsets: seq<int>): (r: seq<string>)
    requires |argOffsets| == |args|
    ensures |r| == 1 + PlaceholderCount + |args|
    ensures r[0] == "nullptr"
    ensures forall i :: 1 <= i < 1 + PlaceholderCount ==> r[i] == "0"
    ensures forall i :: 0 <= i < |args| ==> r[1 + PlaceholderCount + i] == argSnippet(Sort(args[i]), argOffsets[i])
  {
    ["nullptr"] + seq(PlaceholderCount, _ => "0") +
    seq(|args|, i requires 0 <= i < |args| => argSnippet(Sort(args[i]), argOffsets[i]))
  }

  /** The text of an argument list, each entry written as ", " + entry. */
  function ArgList(entries: seq<string>): string
  {
    if entries == [] then "" else ArgList(entries[..|entries| - 1]) + ", " + entries[|entries| - 1]
  }

  /** The text of one more entry follows that of the entries before it. */
  lemma ArgListSnoc(entries: seq<string>, k: nat)
    requires k < |entries|
    ensures ArgList(entries[..k + 1]) == ArgList(entries[..k]) + ", " + entries[k]
  {
    assert entries[..k + 1][..k] == entries[..k];
  }

  /** Each entry adds `, ` and itself: a non-empty list's text starts with
      `, ` and has at least two characters per entry. */
  lemma {:induction false} ArgListShape(entries: seq<string>)
    ensures |ArgList(entries)| >= 2 * |entries|
    ensures entries != [] ==> ArgList(entries)[..2] == ", "
  {
    if entries != [] {
      var init := entries[..|entries| - 1];
      ArgListShape(init);
      SeparatedAppend(ArgList(init), entries[|entries| - 1]);
    }
  }

  /** One more `, `-separated entry after a list text that is empty or starts with `, `. */
  lemma SeparatedAppend(text: string, entry: string)
    requires text == [] || (|text| >= 2 && text[..2] == ", ")
    ensures |text + ", " + entry| == |text| + 2 + |entry|
    ensures (text + ", " + entry)[..2] == ", "
  {
    if text != [] {
      PrefixOfAppend(text, ", " + entry);
      AppendAssoc(text, ", ", entry);
    }
  }

  /** The opening of a lookup: it runs only while cell `methodId` is empty, and stores into that cell. */
  function CellGuard(methodId: nat): string
  {
    "if (!cmethods[" + NatToString(methodId) + "]) { cmethods[" + NatToString(methodId) + "] = "
  }

  /** The generated lookup of the trampoline's method id, done only while the cell is empty. */
  function MethodLookup(methodId: nat, classPtr: string, nameLiteral: string, descLiteral: string, tryCatch: string): (r: string)
    ensures |r| > |CellGuard(methodId)| && r[..|CellGuard(methodId)|] == CellGuard(methodId)
  {
    var rest := "env->GetStaticMethodID(" + classPtr + ", " + nameLiteral + ", " + descLiteral + "); " + tryCatch + "  } ";
    assert (CellGuard(methodId) + rest)[..|CellGuard(methodId)|] == CellGuard(methodId);
    CellGuard(methodId) + rest
  }

  // ---------------------------------------------------------------------------
  // Trampoline methods

  const AccPrivate: bv32 := 0x0002
  const AccStatic: bv32 := 0x0008
  const AccFinal: bv32 := 0x0010
  const AccSynthetic: bv32 := 0x1000

  datatype Insn =
    | VarInsn(opcode: nat, slot: nat)
    | InvokeDynamicInsn(name: string, desc: string, bsm: string, bsmArgs: seq<string>)
    | PlainInsn(opcode: nat)

  /** A method as ASM's MethodNode holds it (the parts this handler sets). */
  datatype MethodNode = MethodNode(
    access: bv32,
    name: string,
    desc: string,
    signature: Option<string>,
    exceptions: seq<string>,
    instructions: seq<Insn>)

  /** An `invokedynamic` instruction: call-site name, descriptor, bootstrap
      method handle and bootstrap arguments (the last two are copied as given). */
  datatype IndyNode = IndyNode(name: string, desc: string, bsm: string, bsmArgs: seq<string>)

  /** The key a site is recorded under: owning method name and ordinal. */
  datatype IndyInfo = IndyInfo(methodName: string, index: nat)

  /** First local slot of the real arguments: after the marker and the placeholders. */
  const FirstArgSlot: nat := 1 + PlaceholderCount

  /** The loads of the real arguments, slot by slot from FirstArgSlot. */
  function ArgumentLoads(args: seq<JType>): seq<Insn>
    requires forall i :: 0 <= i < |args| ==> IsFieldType(args[i])
  {
    seq(|args|, i requires 0 <= i < |args| =>
      assert IsFieldType(args[i]);
      VarInsn(TypedOpcode(args[i], ILoad), FirstArgSlot + SumSizes(args[..i])))
  }

  /** One typed load per argument: the first reads slot FirstArgSlot and
      each later one reads the slot after the previous argument's. */
  lemma ArgumentLoadsSlots(args: seq<JType>)
    requires forall i :: 0 <= i < |args| ==> IsFieldType(args[i])
    ensures |ArgumentLoads(args)| == |args|
    ensures forall i :: 0 <= i < |args| ==>
      args[i] != Void && ArgumentLoads(args)[i].VarInsn? && ArgumentLoads(args)[i].opcode == TypedOpcode(args[i], ILoad)
    ensures |args| > 0 ==> ArgumentLoads(args)[0].slot == FirstArgSlot
    ensures forall i :: 0 <= i < |args| - 1 ==>
      ArgumentLoads(args)[i + 1].slot == ArgumentLoads(args)[i].slot + Size(args[i])
  {
    assert |args| > 0 ==> args[..0] == [];
    SumSizesPrefixStep(args);
    FieldTypesNotVoid(args);
  }

  const TrampolineAccess: bv32 := AccPrivate | AccFinal | AccSynthetic | AccStatic

  /** The trampoline's code: load each real argument, re-issue the
      instruction, return its result. */
  function TrampolineBody(indy: IndyNode): (r: seq<Insn>)
    requires IsMethodDescriptor(indy.desc)
    ensures var m := ParseMethodDescriptor(indy.desc).value;
            && |r| == |m.args| + 2
            && (forall i :: 0 <= i < |m.args| ==> r[i].VarInsn?)
            && r[|m.args|] == InvokeDynamicInsn(indy.name, indy.desc, indy.bsm, indy.bsmArgs)
            && r[|m.args| + 1] == PlainInsn(TypedOpcode(m.ret, IReturn))
  {
    MethodDescriptorParseSound(indy.desc);
    var m := ParseMethodDescriptor(indy.desc).value;
    ArgumentLoads(m.args) +
    [InvokeDynamicInsn(indy.name, indy.desc, indy.bsm, indy.bsmArgs), PlainInsn(TypedOpcode(m.ret, IReturn))]
  }

  /** The method `processIndy` adds for the site recorded as `info`. */
  function Trampoline(nativeDir: string, info: IndyInfo, indy: IndyNode): (r: MethodNode)
    requires IsMethodDescriptor(indy.desc)
    ensures r.access == AccPrivate | AccStatic | AccFinal | AccSynthetic
    ensures r.name == info.methodName && r.signature == None && r.exceptions == []
    ensures |r.instructions| == |ParseMethodDescriptor(indy.desc).value.args| + 2
  {
    MethodNode(TrampolineAccess, info.methodName, TrampolineDescriptor(nativeDir, info.index, indy.desc),
               None, [], TrampolineBody(indy))
  }

  /** The i-th load reads the local slot where a static method whose
      parameters are the prefix followed by `args` keeps parameter
      FirstArgSlot + i, and that parameter is `args[i]`. */
  lemma ArgumentLoadsReadParameters(nativeDir: string, index: nat, args: seq<JType>)
    requires IsValidNativeDir(nativeDir)
    requires forall i :: 0 <= i < |args| ==> IsFieldType(args[i])
    ensures var own := TrampolinePrefix(nativeDir, index) + args;
            forall i :: 0 <= i < |args| ==>
              && own[FirstArgSlot + i] == args[i]
              && ArgumentLoads(args)[i] == VarInsn(TypedOpcode(args[i], ILoad), SumSizes(own[..FirstArgSlot + i]))
  {
    var prefix := TrampolinePrefix(nativeDir, index);
    var own := prefix + args;
    MarkerIsFieldType(nativeDir);
    TypesForIndexShape(index);
    assert forall i :: 0 <= i < |prefix| ==> Size(prefix[i]) == 1;
    SumSizesSingleSlots(prefix);
    forall i | 0 <= i < |args|
      ensures own[FirstArgSlot + i] == args[i]
      ensures ArgumentLoads(args)[i] == VarInsn(TypedOpcode(args[i], ILoad), SumSizes(own[..FirstArgSlot + i]))
    {
      assert own[..FirstArgSlot + i] == prefix + args[..i];
      SumSizesAppend(prefix, args[..i]);
    }
  }

  /** The trampoline is a private static final synthetic method named after
      the owning method; its i-th load reads the local slot of its own
      parameter 9 + i, whose type is the site's i-th argument type, and it
      ends by re-issuing the instruction and returning its result. */
  lemma TrampolineReadsItsParameters(nativeDir: string, info: IndyInfo, indy: IndyNode)
    requires IsValidNativeDir(nativeDir) && IsMethodDescriptor(indy.desc)
    ensures var t := Trampoline(nativeDir, info, indy);
            var site := ParseMethodDescriptor(indy.desc).value;
            var own := TrampolinePrefix(nativeDir, info.index) + site.args;
            && ParseMethodDescriptor(t.desc) == Some(MethodType(own, site.ret))
            && |own| == FirstArgSlot + |site.args|
            && t.name == info.methodName
            && t.access == AccPrivate | AccStatic | AccFinal | AccSynthetic
            && |t.instructions| == |site.args| + 2
            && (forall i :: 0 <= i < |site.args| ==>
                  && own[FirstArgSlot + i] == site.args[i]
                  && IsFieldType(site.args[i])
                  && t.instructions[i] == VarInsn(TypedOpcode(site.args[i], ILoad), SumSizes(own[..FirstArgSlot + i])))
            && t.instructions[|site.args|] == InvokeDynamicInsn(indy.name, indy.desc, indy.bsm, indy.bsmArgs)
            && t.instructions[|site.args| + 1] == PlainInsn(TypedOpcode(site.ret, IReturn))
  {
    var site := ParseMethodDescriptor(indy.desc).value;
    MethodDescriptorParseSound(indy.desc);
    TrampolineDescriptorShape(nativeDir, info.index, indy.desc);
    ArgumentLoadsReadParameters(nativeDir, info.index, site.args);
  }

  // ---------------------------------------------------------------------------
  // The handler

  /** The key of a cached method id: owner class, method name, descriptor
      and whether the method is static. */
  datatype CachedMethodInfo = CachedMethodInfo(clazz: string, name: string, desc: string, isStatic: bool)

  /** Text producers and caches the handler calls but whose code is not part
      of this model: the snippet templates INVOKE_ARG_<sort> and
      INVOKE_POPCNT, the string pool's literal for a string, the trimmed
      try/catch block, the class cache's pointer text for a class, and the
      method cache's cell index and pointer text for a key. As functions,
      the caches answer equal keys alike. */
  datatype Emitters = Emitters(
    argSnippet: (nat, int) -> string,
    popCountSnippet: int -> string,
    literal: string -> string,
    tryCatch: string,
    classPointer: string -> string,
    methodId: CachedMethodInfo -> nat,
    methodPointer: CachedMethodInfo -> string)

  /** The key `process` caches the method id of a site under: the owning
      class and method and the site's own descriptor. */
  function SiteMethodInfo(className: string, methodName: string, desc: string): CachedMethodInfo
  {
    CachedMethodInfo(className, methodName, desc, true)
  }

  /** The translation state of one method as the handler sees it. */
  class MethodContext {
    const className: string
    const methodName: string
    const nativeDir: string
    const env: Emitters
    /** The recorded `invokedynamic` sites. */
    var invokeDynamics: map<IndyInfo, IndyNode>
    /** The generated code so far. */
    var output: string

    /** Every recorded ordinal is below the number of recorded sites. */
    ghost predicate Valid()
      reads this
    {
      forall info :: info in invokeDynamics ==> info.index < |invokeDynamics|
    }

    constructor (className: string, methodName: string, nativeDir: string, env: Emitters)
      ensures Valid()
      ensures this.className == className && this.methodName == methodName
      ensures this.nativeDir == nativeDir && this.env == env
      ensures invokeDynamics == map[] && output == ""
    {
      this.className := className;
      this.methodName := methodName;
      this.nativeDir := nativeDir;
      this.env := env;
      invokeDynamics := map[];
      output := "";
    }
  }

  /** Recording a site under the current number of sites adds a new key and
      keeps every ordinal below the (grown) number of sites. */
  lemma RecordSite(sites: map<IndyInfo, IndyNode>, methodName: string, node: IndyNode)
    requires forall info :: info in sites ==> info.index < |sites|
    ensures IndyInfo(methodName, |sites|) !in sites
    ensures |sites[IndyInfo(methodName, |sites|) := node]| == |sites| + 1
    ensures var grown := sites[IndyInfo(methodName, |sites|) := node];
            forall info :: info in grown ==> info.index < |grown|
  {
  }

  /** The pop count `process` emits: the slots all real arguments take. */
  function PopCountText(env: Emitters, args: seq<JType>): (r: string)
    ensures args == [] ==> r == env.popCountSnippet(0) + " "
    ensures args != [] ==>
      r == env.popCountSnippet(-(ArgOffsets(args)[|args| - 1] - Size(args[|args| - 1])) - 1) + " "
  {
    env.popCountSnippet(SumSizes(args)) + " "
  }

  /** The once-only lookup `process` emits: it looks the trampoline up by
      the owning method's name and the trampoline descriptor. */
  function TrampolineLookup(env: Emitters, nativeDir: string, info: IndyInfo, desc: string,
                            methodId: nat, classPtr: string): (r: string)
    requires IsMethodDescriptor(desc)
    ensures var m := ParseMethodDescriptor(desc).value;
            r == MethodLookup(methodId, classPtr, env.literal(info.methodName),
                              env.literal(MethodDescriptor(MethodType(TrampolinePrefix(nativeDir, info.index) + m.args, m.ret))),
                              env.tryCatch)
  {
    MethodLookup(methodId, classPtr, env.literal(info.methodName),
                 env.literal(TrampolineDescriptor(nativeDir, info.index, desc)), env.tryCatch)
  }

  class InvokeDynamicHandler {
    var instructionName: string
    var props: map<string, string>

    constructor ()
      ensures instructionName == "" && props == map[]
    {
      instructionName := "";
      props := map[];
    }

    /** `getTypesForIndex`: the base-4 digits of `index` as placeholder types. */
    static method GetTypesForIndex(index: nat) returns (types: seq<JType>)
      ensures types == TypesForIndex(index)
      ensures |types| == PlaceholderCount
      ensures forall i :: 0 <= i < |types| ==> types[i] in PlaceholderTypes
    {
      types := [];
      var rest := index;
      for i := 0 to PlaceholderCount
        invariant types + PlaceholderDigits(rest, PlaceholderCount - i) == TypesForIndex(index)
      {
        assert PlaceholderDigits(rest, PlaceholderCount - i) ==
          [PlaceholderTypes[rest % 4]] + PlaceholderDigits(rest / 4, PlaceholderCount - i - 1);
        types := types + [PlaceholderTypes[rest % 4]];
        rest := rest / 4;
      }
      TypesForIndexShape(index);
    }

    /** `modifyMethodDescriptor`: the source descriptor with `prependTypes`
        put in front of its arguments; the return type is kept. */
    static function ModifyMethodDescriptor(prependTypes: seq<JType>, sourceDescriptor: string): (r: string)
      requires IsMethodDescriptor(sourceDescriptor)
      ensures (forall i :: 0 <= i < |prependTypes| ==> IsFieldType(prependTypes[i])) ==>
        ParseMethodDescriptor(r) ==
          Some(MethodType(prependTypes + ParseMethodDescriptor(sourceDescriptor).value.args,
                          ParseMethodDescriptor(sourceDescriptor).value.ret))
    {
      var m := ParseMethodDescriptor(sourceDescriptor).value;
      var result := MethodType(prependTypes + m.args, m.ret);
      MethodDescriptorParseSound(sourceDescriptor);
      if forall i :: 0 <= i < |prependTypes| ==> IsFieldType(prependTypes[i]) then
        MethodDescriptorRoundTrip(result);
        MethodDescriptor(result)
      else
        MethodDescriptor(result)
    }

    /** The stack offsets of the arguments and the offset past the last one. */
    static method ComputeArgOffsets(args: seq<JType>) returns (argOffsets: seq<int>, stackOffset: int)
      ensures argOffsets == ArgOffsets(args)
      ensures -stackOffset - 1 == SumSizes(args)
    {
      argOffsets := [];
      stackOffset := -1;
      for i := 0 to |args|
        invariant argOffsets == ArgOffsets(args[..i])
        invariant stackOffset == -1 - SumSizes(args[..i])
      {
        assert args[..i + 1][..i] == args[..i];
        assert forall k :: 0 <= k < i ==> args[..i + 1][..k] == args[..i][..k];
        argOffsets := argOffsets + [stackOffset];
        stackOffset := stackOffset - Size(args[i]);
      }
      assert args[..|args|] == args;
    }

    /** The text of the reflective argument list, built entry by entry. */
    static method BuildReflectiveArgs(argSnippet: (nat, int) -> string, args: seq<JType>, argOffsets: seq<int>)
      returns (text: string)
      requires |argOffsets| == |args|
      ensures text == ArgList(ReflectiveArgs(argSnippet, args, argOffsets))
    {
      ghost var entries := ReflectiveArgs(argSnippet, args, argOffsets);
      text := ", nullptr";
      assert entries[..1] == ["nullptr"];
      assert ArgList(entries[..1]) == ArgList([]) + ", " + "nullptr";
      text := AppendPlaceholderZeros(entries, text);
      text := AppendArgumentEntries(argSnippet, args, argOffsets, entries, text);
    }

    /** The loop that writes one `0` per placeholder. */
    static method AppendPlaceholderZeros(ghost entries: seq<string>, start: string) returns (text: string)
      requires |entries| >= 1 + PlaceholderCount
      requires forall i :: 1 <= i < 1 + PlaceholderCount ==> entries[i] == "0"
      requires start == ArgList(entries[..1])
      ensures text == ArgList(entries[..1 + PlaceholderCount])
    {
      text := start;
      for i := 0 to PlaceholderCount
        invariant text == ArgList(entries[..1 + i])
      {
        ArgListSnoc(entries, 1 + i);
        text := text + ", 0";
      }
    }

    /** The loop that writes one snippet per real argument, at its stack offset. */
    static method AppendArgumentEntries(argSnippet: (nat, int) -> string, args: seq<JType>, argOffsets: seq<int>,
                                        ghost entries: seq<string>, start: string) returns (text: string)
      requires |argOffsets| == |args| && |entries| == 1 + PlaceholderCount + |args|
      requires forall i :: 0 <= i < |args| ==> entries[1 + PlaceholderCount + i] == argSnippet(Sort(args[i]), argOffsets[i])
      requires start == ArgList(entries[..1 + PlaceholderCount])
      ensures text == ArgList(entries)
    {
      text := start;
      for i := 0 to |argOffsets|
        invariant text == ArgList(entries[..1 + PlaceholderCount + i])
      {
        ArgListSnoc(entries, 1 + PlaceholderCount + i);
        text := text + ", " + argSnippet(Sort(args[i]), argOffsets[i]);
      }
      assert entries[..1 + PlaceholderCount + |args|] == entries;
    }

    /** `process`: records the site under the next ordinal, emits the pop
        count and the once-only lookup of the trampoline's method id, and
        sets the template properties of the static-call template. */
    method Process(context: MethodContext, node: IndyNode)
      requires context.Valid() && IsMethodDescriptor(node.desc)
      modifies this, context
      ensures context.Valid()
      ensures var info := IndyInfo(context.methodName, |old(context.invokeDynamics)|);
        var key := SiteMethodInfo(context.className, context.methodName, node.desc);
        && info !in old(context.invokeDynamics)
        && context.invokeDynamics == old(context.invokeDynamics)[info := node]
        && |context.invokeDynamics| == |old(context.invokeDynamics)| + 1
        && context.output == old(context.output) +
             PopCountText(context.env, ParseMethodDescriptor(node.desc).value.args) +
             TrampolineLookup(context.env, context.nativeDir, info, node.desc,
                              context.env.methodId(key), context.env.classPointer(context.className))
      ensures instructionName == "INVOKESTATIC_" + NatToString(Sort(ParseMethodDescriptor(node.desc).value.ret))
      ensures var args := ParseMethodDescriptor(node.desc).value.args;
        var key := SiteMethodInfo(context.className, context.methodName, node.desc);
        props == old(props)["class_ptr" := context.env.classPointer(context.className)]
                           ["methodid" := context.env.methodPointer(key)]
                           ["args" := ArgList(ReflectiveArgs(context.env.argSnippet, args, ArgOffsets(args)))]
    {
      var index := |context.invokeDynamics|;
      var info := IndyInfo(context.methodName, index);
      RecordSite(context.invokeDynamics, context.methodName, node);
      context.invokeDynamics := context.invokeDynamics[info := node];

      var m := ParseMethodDescriptor(node.desc).value;
      var returnType, args := m.ret, m.args;
      instructionName := "INVOKESTATIC_" + NatToString(Sort(returnType));

      var argOffsets, stackOffset := ComputeArgOffsets(args);
      var argsText := BuildReflectiveArgs(context.env.argSnippet, args, argOffsets);

      var popCount := context.env.popCountSnippet(-stackOffset - 1) + " ";
      context.output := context.output + popCount;

      props := props["class_ptr" := context.env.classPointer(context.className)];

      var methodInfo := SiteMethodInfo(context.className, context.methodName, node.desc);
      var methodId := context.env.methodId(methodInfo);
      props := props["methodid" := context.env.methodPointer(methodInfo)];

      var placeholders := GetTypesForIndex(index);
      var resultDesc := ModifyMethodDescriptor([Marker(context.nativeDir)] + placeholders, node.desc);
      var lookup := MethodLookup(methodId, context.env.classPointer(context.className), context.env.literal(context.methodName),
                                 context.env.literal(resultDesc), context.env.tryCatch);
      context.output := context.output + lookup;

      props := props["args" := argsText];
    }

    /** `processIndy`: appends the trampoline for a recorded site to the class. */
    static method ProcessIndy(nativeDir: string, classNode: ClassNode, info: IndyInfo, indy: IndyNode)
      requires IsMethodDescriptor(indy.desc)
      modifies classNode
      ensures classNode.methods == old(classNode.methods) + [Trampoline(nativeDir, info, indy)]
    {
      var placeholders := GetTypesForIndex(info.index);
      var resultArguments := [Marker(nativeDir)] + placeholders;
      var desc := ModifyMethodDescriptor(resultArguments, indy.desc);

      MethodDescriptorParseSound(indy.desc);
      var m := ParseMethodDescriptor(indy.desc).value;
      var instructions, _ := LoadArguments(m.args);
      instructions := instructions + [InvokeDynamicInsn(indy.name, indy.desc, indy.bsm, indy.bsmArgs)];
      instructions := instructions + [PlainInsn(TypedOpcode(m.ret, IReturn))];

      assert instructions == TrampolineBody(indy);
      assert desc == TrampolineDescriptor(nativeDir, info.index, indy.desc);
      var indyWrapper := MethodNode(TrampolineAccess, info.methodName, desc, None, [], instructions);
      classNode.methods := classNode.methods + [indyWrapper];
    }

    /** The loop of `processIndy` that loads the real arguments, advancing the
        local slot by each argument's size from FirstArgSlot. */
    static method LoadArguments(args: seq<JType>) returns (instructions: seq<Insn>, localVarsPosition: nat)
      requires forall i :: 0 <= i < |args| ==> IsFieldType(args[i])
      ensures instructions == ArgumentLoads(args)
      ensures localVarsPosition == FirstArgSlot + SumSizes(args)
    {
      instructions := [];
      localVarsPosition := FirstArgSlot;
      for i := 0 to |args|
        invariant instructions == ArgumentLoads(args[..i])
        invariant localVarsPosition == FirstArgSlot + SumSizes(args[..i])
      {
        assert args[..i + 1][..i] == args[..i];
        assert forall k :: 0 <= k < i ==> args[..i + 1][..k] == args[..i][..k];
        instructions := instructions + [VarInsn(TypedOpcode(args[i], ILoad), localVarsPosition)];
        localVarsPosition := localVarsPosition + Size(args[i]);
      }
      assert args[..|args|] == args;
    }
  }

  /** The part of ASM's ClassNode this handler changes: its method list. */
  class ClassNode {
    var methods: seq<MethodNode>

    constructor (methods: seq<MethodNode>)
      ensures this.methods == methods
    {
      this.methods := methods;
    }
  }

  /** A site recorded by `process` and the trampoline `processIndy` adds for
      it agree: the lookup the call site emits names exactly the
      trampoline's name and descriptor, and that descriptor parses as the
      marker, the ordinal's placeholders and the site's own argument and
      return types. */
  lemma CallSiteFindsTrampoline(env: Emitters, nativeDir: string, info: IndyInfo, node: IndyNode,
                                methodId: nat, classPtr: string)
    requires IsValidNativeDir(nativeDir) && IsMethodDescriptor(node.desc)
    ensures var t := Trampoline(nativeDir, info, node);
            var site := ParseMethodDescriptor(node.desc).value;
            && TrampolineLookup(env, nativeDir, info, node.desc, methodId, classPtr) ==
                 MethodLookup(methodId, classPtr, env.literal(t.name), env.literal(t.desc), env.tryCatch)
            && ParseMethodDescriptor(t.desc) ==
                 Some(MethodType([Marker(nativeDir)] + TypesForIndex(info.index) + site.args, site.ret))
  {
    TrampolineDescriptorShape(nativeDir, info.index, node.desc);
  }

  /** As written, `process` keys the method-id cell by the site's own
      descriptor. Two sites of one method with the same descriptor (two
      lambdas of the same shape, say) therefore test and fill the same cell
      and call through the same pointer, although their lookups name two
      different trampolines: once one site has filled the cell, the other
      site's lookup is skipped and it calls the first site's trampoline. */
  lemma SameShapeSitesShareCell(env: Emitters, className: string, nativeDir: string, methodName: string,
                                desc: string, i: nat, j: nat)
    requires IsValidNativeDir(nativeDir) && IsMethodDescriptor(desc)
    requires i < Capacity && j < Capacity && i != j
    ensures var key := SiteMethodInfo(className, methodName, desc);
            var guard := CellGuard(env.methodId(key));
            var lookupI := TrampolineLookup(env, nativeDir, IndyInfo(methodName, i), desc,
                                            env.methodId(key), env.classPointer(className));
            var lookupJ := TrampolineLookup(env, nativeDir, IndyInfo(methodName, j), desc,
                                            env.methodId(key), env.classPointer(className));
            && lookupI[..|guard|] == guard && lookupJ[..|guard|] == guard
            && TrampolineDescriptor(nativeDir, i, desc) != TrampolineDescriptor(nativeDir, j, desc)
  {
    if TrampolineDescriptor(nativeDir, i, desc) == TrampolineDescriptor(nativeDir, j, desc) {
      TrampolineDescriptorsDistinct(nativeDir, i, j, desc, desc);
    }
  }

  /** The key of the trampoline a site calls: the owning class, the
      trampoline's name and the trampoline's own descriptor. */
  function TrampolineMethodInfo(className: string, nativeDir: string, info: IndyInfo, desc: string): CachedMethodInfo
    requires IsMethodDescriptor(desc)
  {
    CachedMethodInfo(className, info.methodName, TrampolineDescriptor(nativeDir, info.index, desc), true)
  }

  /** Keyed by the trampoline, a cell belongs to one site: equal keys mean
      the same owning method, the same ordinal and the same site
      descriptor, so two sites of the same shape get distinct keys and a
      cache that gives distinct keys distinct ids gives them distinct cells. */
  lemma TrampolineKeysDistinct(className: string, nativeDir: string, info1: IndyInfo, desc1: string,
                               info2: IndyInfo, desc2: string)
    requires IsValidNativeDir(nativeDir) && IsMethodDescriptor(desc1) && IsMethodDescriptor(desc2)
    requires info1.index < Capacity && info2.index < Capacity
    requires TrampolineMethodInfo(className, nativeDir, info1, desc1) == TrampolineMethodInfo(className, nativeDir, info2, desc2)
    ensures info1 == info2 && desc1 == desc2
  {
    TrampolineDescriptorsDistinct(nativeDir, info1.index, info2.index, desc1, desc2);
  }

  /** The worked case of a site taking two ints and returning an int: it
      pops two slots and passes eleven reflective arguments. */
  lemma TwoIntSiteStack(argSnippet: (nat, int) -> string)
    ensures SumSizes([]) == 0
    ensures SumSizes([Int, Int]) == 2
    ensures ArgOffsets([Int, Int]) == [-1, -2]
    ensures |ReflectiveArgs(argSnippet, [Int, Int], ArgOffsets([Int, Int]))| == 11
  {
    assert [Int, Int][..1] == [Int];
    assert [Int, Int][..0] == [];
  }

  lemma TwoIntDescriptor()
    ensures ParseMethodDescriptor("(II)I") == Some(MethodType([Int, Int], Int))
  {
    var site := MethodType([Int, Int], Int);
    MethodDescriptorRoundTrip(site);
    assert ArgumentsDescriptor([Int]) == "I";
    assert ArgumentsDescriptor([Int, Int]) == "II" by {
      assert [Int, Int][1..] == [Int];
    }
    assert MethodDescriptor(site) == "(II)I";
  }

  /** The first trampoline of such a site is (marker, eight ints, int, int) -> int. */
  lemma TwoIntSiteTrampoline(nativeDir: string)
    requires IsValidNativeDir(nativeDir)
    ensures ParseMethodDescriptor(TrampolineDescriptor(nativeDir, 0, "(II)I")) ==
      Some(MethodType([Marker(nativeDir), Int, Int, Int, Int, Int, Int, Int, Int, Int, Int], Int))
  {
    TwoIntDescriptor();
    TrampolineDescriptorShape(nativeDir, 0, "(II)I");
    TypesForIndexShape(0);
    assert TypesForIndex(0) == [Int, Int, Int, Int, Int, Int, Int, Int];
    assert TrampolinePrefix(nativeDir, 0) + [Int, Int] ==
      [Marker(nativeDir), Int, Int, Int, Int, Int, Int, Int, Int, Int, Int];
  }
}
