/** JVM types and method descriptors as the translator handles them through
    ASM's `Type` class: field and method descriptors of section 4.3 of the Java
    Virtual Machine Specification ("Descriptors"), their rendering to text, a
    parser for them, and the size, sort and opcode tables ASM derives from a
    type. */
module JvmTypes {
  import opened TextUtil

  datatype Option<T> = None | Some(value: T)

  datatype JType =
    | Void
    | Boolean
    | Char
    | Byte
    | Short
    | Int
    | Float
    | Long
    | Double
    | ArrayOf(elem: JType)
    | Object(internalName: string)

  /** A method type: argument types in order and a return type. */
  datatype MethodType = MethodType(args: seq<JType>, ret: JType)

  /** `Type.getSize`: the number of operand-stack or local-variable slots a
      value of the type occupies (section 2.6.1 of the JVM specification). */
  function Size(t: JType): (r: nat)
    ensures r <= 2
    ensures r == 0 <==> t == Void
    ensures r == 2 <==> t == Long || t == Double
  {
    match t
    case Void => 0
    case Long => 2
    case Double => 2
    case _ => 1
  }

  /** `Type.getSort`: ASM's numeric sort constants, VOID = 0 up to OBJECT = 10. */
  function Sort(t: JType): (r: nat)
    ensures r <= 10
    ensures r == 9 <==> t.ArrayOf?
    ensures r == 10 <==> t.Object?
  {
    match t
    case Void => 0
    case Boolean => 1
    case Char => 2
    case Byte => 3
    case Short => 4
    case Int => 5
    case Float => 6
    case Long => 7
    case Double => 8
    case ArrayOf(_) => 9
    case Object(_) => 10
  }

  /** Sorts of distinct primitive types differ. */
  lemma SortDistinguishesPrimitives(a: JType, b: JType)
    requires !a.ArrayOf? && !a.Object? && !b.ArrayOf? && !b.Object?
    requires Sort(a) == Sort(b)
    ensures a == b
  {
  }

  const ILoad: nat := 21
  const IReturn: nat := 172
  const Return: nat := 177

  /** `Type.getOpcode(opcode)` for the ILOAD and IRETURN families: the variant
      of the int instruction for the given type. */
  function TypedOpcode(t: JType, opcode: nat): (r: nat)
    requires opcode == ILoad || opcode == IReturn
    requires t == Void ==> opcode == IReturn
    ensures opcode == ILoad ==> ILoad <= r <= ILoad + 4
    ensures opcode == IReturn ==> IReturn <= r <= Return
    ensures r == opcode <==> t in {Boolean, Char, Byte, Short, Int}
    ensures r == opcode + 4 <==> t.ArrayOf? || t.Object?
  {
    match t
    case Void => Return
    case Long => opcode + 1
    case Float => opcode + 2
    case Double => opcode + 3
    case ArrayOf(_) => opcode + 4
    case Object(_) => opcode + 4
    case _ => opcode
  }

  /** Types that may stand as a field or as a method argument: not `void`, and
      an internal class name does not contain the terminator `;`. */
  predicate IsFieldType(t: JType)
  {
    match t
    case Void => false
    case ArrayOf(e) => IsFieldType(e)
    case Object(name) => ';' !in name
    case _ => true
  }

  lemma FieldTypesNotVoid(ts: seq<JType>)
    requires forall i :: 0 <= i < |ts| ==> IsFieldType(ts[i])
    ensures forall i :: 0 <= i < |ts| ==> ts[i] != Void
  {
  }

  predicate IsReturnType(t: JType)
  {
    t == Void || IsFieldType(t)
  }

  predicate IsValidMethodType(m: MethodType)
  {
    (forall i :: 0 <= i < |m.args| ==> IsFieldType(m.args[i])) && IsReturnType(m.ret)
  }

  /** `Type.getDescriptor`. */
  function Descriptor(t: JType): string
  {
    match t
    case Void => "V"
    case Boolean => "Z"
    case Char => "C"
    case Byte => "B"
    case Short => "S"
    case Int => "I"
    case Float => "F"
    case Long => "J"
    case Double => "D"
    case ArrayOf(e) => "[" + Descriptor(e)
    case Object(name) => "L" + name + ";"
  }

  function ArgumentsDescriptor(ts: seq<JType>): string
  {
    if ts == [] then "" else Descriptor(ts[0]) + ArgumentsDescriptor(ts[1..])
  }

  /** `Type.getMethodDescriptor(returnType, argumentTypes...)`. */
  function MethodDescriptor(m: MethodType): string
  {
    "(" + ArgumentsDescriptor(m.args) + ")" + Descriptor(m.ret)
  }

  function BaseType(c: char): Option<JType>
  {
    match c
    case 'Z' => Some(Boolean)
    case 'C' => Some(Char)
    case 'B' => Some(Byte)
    case 'S' => Some(Short)
    case 'I' => Some(Int)
    case 'F' => Some(Float)
    case 'J' => Some(Long)
    case 'D' => Some(Double)
    case _ => None
  }

  /** The index of the first `;` at or after `i`, or `|s|` when there is none. */
  function SemicolonAt(s: string, i: nat): (r: nat)
    requires i <= |s|
    ensures i <= r <= |s|
    ensures r < |s| ==> s[r] == ';'
    ensures forall j :: i <= j < r ==> s[j] != ';'
    decreases |s| - i
  {
    if i == |s| then |s| else if s[i] == ';' then i else SemicolonAt(s, i + 1)
  }

  /** Reads one field descriptor off the front of `s` and returns the type
      and what follows it. */
  function ParseFieldType(s: string): (r: Option<(JType, string)>)
    ensures r.Some? ==> |r.value.1| < |s|
    decreases |s|
  {
    if s == [] then None
    else if s[0] == '[' then
      match ParseFieldType(s[1..])
      case None => None
      case Some((e, rest)) => Some((ArrayOf(e), rest))
    else if s[0] == 'L' then
      var k := SemicolonAt(s, 1);
      if k == |s| then None else Some((Object(s[1..k]), s[k + 1..]))
    else
      match BaseType(s[0])
      case None => None
      case Some(t) => Some((t, s[1..]))
  }

  /** Reads field descriptors up to and including the closing `)`. */
  function ParseArguments(s: string): Option<(seq<JType>, string)>
    decreases |s|
  {
    if s == [] then None
    else if s[0] == ')' then Some(([], s[1..]))
    else
      match ParseFieldType(s)
      case None => None
      case Some((t, rest)) =>
        match ParseArguments(rest)
        case None => None
        case Some((ts, after)) => Some(([t] + ts, after))
  }

  /** A return descriptor that makes up the whole of `s`. */
  function ParseReturnType(s: string): Option<JType>
  {
    if s == "V" then Some(Void)
    else
      match ParseFieldType(s)
      case Some((t, rest)) => if rest == [] then Some(t) else None
      case None => None
  }

  /** `Type.getArgumentTypes` and `Type.getReturnType` together, on a
      descriptor that must be well formed as a whole. */
  function ParseMethodDescriptor(s: string): Option<MethodType>
  {
    if s == [] || s[0] != '(' then None
    else
      match ParseArguments(s[1..])
      case None => None
      case Some((args, after)) =>
        match ParseReturnType(after)
        case None => None
        case Some(ret) => Some(MethodType(args, ret))
  }

  predicate IsMethodDescriptor(s: string)
  {
    ParseMethodDescriptor(s).Some?
  }

  // ---------------------------------------------------------------------------
  // Rendering then parsing gives the type back.

  lemma ObjectRoundTrip(name: string, rest: string)
    requires ';' !in name
    ensures ParseFieldType("L" + name + ";" + rest) == Some((Object(name), rest))
  {
    var s := "L" + name + ";" + rest;
    var k := SemicolonAt(s, 1);
    assert s[|name| + 1] == ';';
    assert forall j :: 1 <= j < |name| + 1 ==> s[j] == name[j - 1];
    assert k == |name| + 1;
    assert s[1..k] == name;
    assert s[k + 1..] == rest;
  }

  lemma {:induction false} FieldTypeRoundTrip(t: JType, rest: string)
    requires IsFieldType(t)
    ensures ParseFieldType(Descriptor(t) + rest) == Some((t, rest))
  {
    var s := Descriptor(t) + rest;
    if t.ArrayOf? {
      assert s[1..] == Descriptor(t.elem) + rest;
      FieldTypeRoundTrip(t.elem, rest);
    } else if t.Object? {
      ObjectRoundTrip(t.internalName, rest);
    } else {
      assert |Descriptor(t)| == 1 && BaseType(s[0]) == Some(t);
      assert s[1..] == rest;
    }
  }

  lemma {:induction false} ArgumentsRoundTrip(ts: seq<JType>, rest: string)
    requires forall i :: 0 <= i < |ts| ==> IsFieldType(ts[i])
    ensures ParseArguments(ArgumentsDescriptor(ts) + ")" + rest) == Some((ts, rest))
    decreases |ts|
  {
    if ts == [] {
      assert ArgumentsDescriptor(ts) + ")" + rest == ")" + rest;
      assert (")" + rest)[1..] == rest;
    } else {
      var tail := ArgumentsDescriptor(ts[1..]) + ")" + rest;
      assert ArgumentsDescriptor(ts) + ")" + rest == Descriptor(ts[0]) + tail;
      FieldTypeRoundTrip(ts[0], tail);
      assert Descriptor(ts[0])[0] != ')';
      ArgumentsRoundTrip(ts[1..], rest);
      assert [ts[0]] + ts[1..] == ts;
    }
  }

  lemma {:induction false} MethodDescriptorRoundTrip(m: MethodType)
    requires IsValidMethodType(m)
    ensures ParseMethodDescriptor(MethodDescriptor(m)) == Some(m)
  {
    var s := MethodDescriptor(m);
    var ret := Descriptor(m.ret);
    assert s[1..] == ArgumentsDescriptor(m.args) + ")" + ret;
    ArgumentsRoundTrip(m.args, ret);
    if m.ret != Void {
      FieldTypeRoundTrip(m.ret, "");
      assert ret + "" == ret;
      assert ret != "V";
    }
  }

  // ---------------------------------------------------------------------------
  // Parsing accepts only canonical text: whatever it accepts renders back
  // to exactly the same characters.

  lemma {:induction false} FieldTypeParseSound(s: string, t: JType, rest: string)
    requires ParseFieldType(s) == Some((t, rest))
    ensures IsFieldType(t)
    ensures Descriptor(t) + rest == s
    decreases |s|
  {
    if s[0] == '[' {
      var (e, r) := ParseFieldType(s[1..]).value;
      FieldTypeParseSound(s[1..], e, r);
      assert s == [s[0]] + s[1..];
    } else if s[0] == 'L' {
      var k := SemicolonAt(s, 1);
      assert ';' !in s[1..k] by {
        forall j | 0 <= j < k - 1 ensures s[1..k][j] != ';' {
          assert s[1..k][j] == s[j + 1];
        }
      }
      assert s == "L" + s[1..k] + ";" + s[k + 1..];
    } else {
      assert s == [s[0]] + s[1..];
    }
  }

  lemma {:induction false} ArgumentsParseSound(s: string, ts: seq<JType>, after: string)
    requires ParseArguments(s) == Some((ts, after))
    ensures forall i :: 0 <= i < |ts| ==> IsFieldType(ts[i])
    ensures ArgumentsDescriptor(ts) + ")" + after == s
    decreases |s|
  {
    if s[0] == ')' {
      assert s == ")" + s[1..];
    } else {
      var (t, rest) := ParseFieldType(s).value;
      FieldTypeParseSound(s, t, rest);
      var (ts', after') := ParseArguments(rest).value;
      ArgumentsParseSound(rest, ts', after');
      assert ts == [t] + ts';
      assert ts[1..] == ts';
      var d, a := Descriptor(t), ArgumentsDescriptor(ts');
      assert ArgumentsDescriptor(ts) == d + a;
      AppendAssoc(d, a + ")", after);
      AppendAssoc(d, a, ")");
    }
  }

  lemma {:induction false} MethodDescriptorParseSound(s: string)
    requires IsMethodDescriptor(s)
    ensures IsValidMethodType(ParseMethodDescriptor(s).value)
    ensures MethodDescriptor(ParseMethodDescriptor(s).value) == s
  {
    var (args, after) := ParseArguments(s[1..]).value;
    ArgumentsParseSound(s[1..], args, after);
    var ret := ParseReturnType(after).value;
    if after != "V" {
      var (t, rest) := ParseFieldType(after).value;
      FieldTypeParseSound(after, t, rest);
      assert rest == [] && t == ret;
    }
    assert MethodDescriptor(MethodType(args, ret)) == "(" + (ArgumentsDescriptor(args) + ")" + after);
    assert s == "(" + s[1..];
  }

  /** Distinct valid method types never share a descriptor. */
  lemma MethodDescriptorInjective(m1: MethodType, m2: MethodType)
    requires IsValidMethodType(m1) && IsValidMethodType(m2)
    requires MethodDescriptor(m1) == MethodDescriptor(m2)
    ensures m1 == m2
  {
    MethodDescriptorRoundTrip(m1);
    MethodDescriptorRoundTrip(m2);
  }
}
