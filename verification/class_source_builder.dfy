/** Assembly of the generated source file of one class. The builder appends
    to a writer: a header declaring the per-class cell arrays, the translated
    method bodies, and the registration routine that fills the string cells
    and registers the class's native methods. The writer is modelled as the
    text written so far. */
module ClassSource {
  import opened TextUtil

  /** One `(key, index)` entry of a NodeCache, as `getCache().entrySet()` yields it. */
  datatype CacheEntry = CacheEntry(key: string, index: nat)

  /** A NodeCache as the builder reads it: its entries in iteration order and
      its `getPointer` text for a key. */
  datatype NodeCacheView = NodeCacheView(entries: seq<CacheEntry>, pointer: string -> string)

  /** The provider of promoted static interface methods: whether it has any,
      their native-method table rows, and the companion class's name. */
  datatype StaticClassProvider = StaticClassProvider(isEmpty: bool, methods: string, currentClassName: string)

  /** Helpers whose code is not part of this model: `Util.escapeCppNameString`,
      `Util.escapeCommentString` and the string pool's literal for a string. */
  datatype Helpers = Helpers(escapeCppName: string -> string, escapeComment: string -> string, literal: string -> string)

  // ---------------------------------------------------------------------------
  // File name

  /** The output file's base name: the class name with `/` turned into `_`,
      escaped, then `_` and the class index. */
  function FileName(escapeCppName: string -> string, className: string, classIndex: int): (r: string)
    ensures SuffixAfterLast(r, '_') == IntToString(classIndex)
  {
    IntToStringChars(classIndex);
    SuffixAfterLastSplit(escapeCppName(ReplaceChar(className, '/', '_')), '_', IntToString(classIndex));
    escapeCppName(ReplaceChar(className, '/', '_')) + "_" + IntToString(classIndex)
  }

  /** Whatever the escaped class name, the text after the last `_` is the
      class index, so classes with distinct indices never share a file. */
  lemma FileNameDeterminesIndex(escapeCppName: string -> string, className1: string, classIndex1: int,
                                className2: string, classIndex2: int)
    requires FileName(escapeCppName, className1, classIndex1) == FileName(escapeCppName, className2, classIndex2)
    ensures classIndex1 == classIndex2
  {
    IntToStringInjective(classIndex1, classIndex2);
  }

  // ---------------------------------------------------------------------------
  // Header

  /** The per-class cell arrays, in the order the header declares them. */
  datatype CellArray = StringCells | ClassMutexes | ClassCells | MethodCells | FieldCells

  function ArrayName(a: CellArray): (r: string)
    ensures '\n' !in r
  {
    match a
    case StringCells => "cstrings"
    case ClassMutexes => "cclasses_mtx"
    case ClassCells => "cclasses"
    case MethodCells => "cmethods"
    case FieldCells => "cfields"
  }

  function ElementType(a: CellArray): (r: string)
    ensures '\n' !in r
  {
    match a
    case StringCells => "jstring"
    case ClassMutexes => "std::mutex"
    case ClassCells => "jclass"
    case MethodCells => "jmethodID"
    case FieldCells => "jfieldID"
  }

  /** Position of an array in the fixed declaration order. */
  function Rank(a: CellArray): nat
  {
    match a
    case StringCells => 0
    case ClassMutexes => 1
    case ClassCells => 2
    case MethodCells => 3
    case FieldCells => 4
  }

  /** The sizes of the class's string, class, method and field caches. */
  datatype CacheSizes = CacheSizes(strings: int, classes: int, methods: int, fields: int)

  /** The cache size that sizes an array: the class cache sizes both the
      mutexes and the class references. */
  function CountFor(a: CellArray, sizes: CacheSizes): int
  {
    match a
    case StringCells => sizes.strings
    case ClassMutexes => sizes.classes
    case ClassCells => sizes.classes
    case MethodCells => sizes.methods
    case FieldCells => sizes.fields
  }

  /** The arrays in the order the header considers them. */
  const DeclarationOrder: seq<CellArray> := [StringCells, ClassMutexes, ClassCells, MethodCells, FieldCells]

  /** One array declaration of the header. */
  datatype Decl = Decl(cells: CellArray, length: nat)

  /** The declaration of one array, present only when its cache is not empty. */
  function DeclFor(a: CellArray, count: int): seq<Decl>
  {
    if count > 0 then [Decl(a, count)] else []
  }

  /** The declarations of the arrays `order`, considered in turn. */
  function DeclsFor(order: seq<CellArray>, sizes: CacheSizes): seq<Decl>
  {
    if order == [] then [] else DeclsFor(order[..|order| - 1], sizes) + DeclFor(order[|order| - 1], CountFor(order[|order| - 1], sizes))
  }

  /** The declarations `addHeader` writes for the given cache sizes. */
  function Declarations(sizes: CacheSizes): seq<Decl>
  {
    DeclsFor(DeclarationOrder, sizes)
  }

  predicate Declares(ds: seq<Decl>, a: CellArray)
  {
    exists i :: 0 <= i < |ds| && ds[i].cells == a
  }

  lemma DeclaresAppend(ds: seq<Decl>, more: seq<Decl>, a: CellArray)
    ensures Declares(ds + more, a) <==> Declares(ds, a) || Declares(more, a)
  {
    if Declares(ds + more, a) {
      var i :| 0 <= i < |ds + more| && (ds + more)[i].cells == a;
      if i >= |ds| {
        assert more[i - |ds|].cells == a;
      }
    }
    if Declares(ds, a) {
      var i :| 0 <= i < |ds| && ds[i].cells == a;
      assert (ds + more)[i] == ds[i];
    }
    if Declares(more, a) {
      var i :| 0 <= i < |more| && more[i].cells == a;
      assert (ds + more)[|ds| + i] == more[i];
    }
  }

  /** An array is declared exactly when it is among those considered and its
      cache is not empty; every declaration is as long as its cache. */
  lemma {:induction false} DeclsForContents(order: seq<CellArray>, sizes: CacheSizes)
    ensures var ds := DeclsFor(order, sizes);
            && (forall a :: Declares(ds, a) <==> a in order && CountFor(a, sizes) > 0)
            && (forall i :: 0 <= i < |ds| ==> ds[i].cells in order && ds[i].length == CountFor(ds[i].cells, sizes))
    decreases |order|
  {
    if order != [] {
      var init := order[..|order| - 1];
      var last := order[|order| - 1];
      DeclsForContents(init, sizes);
      assert order == init + [last];
      forall a ensures Declares(DeclsFor(order, sizes), a) <==> a in order && CountFor(a, sizes) > 0 {
        DeclaresAppend(DeclsFor(init, sizes), DeclFor(last, CountFor(last, sizes)), a);
        if CountFor(last, sizes) > 0 {
          assert DeclFor(last, CountFor(last, sizes))[0].cells == last;
        }
      }
    }
  }

  /** Declarations keep the order in which the arrays are considered. */
  lemma {:induction false} DeclsForOrdered(order: seq<CellArray>, sizes: CacheSizes)
    requires forall i, j :: 0 <= i < j < |order| ==> Rank(order[i]) < Rank(order[j])
    ensures var ds := DeclsFor(order, sizes);
            forall i, j :: 0 <= i < j < |ds| ==> Rank(ds[i].cells) < Rank(ds[j].cells)
    decreases |order|
  {
    if order != [] {
      var init := order[..|order| - 1];
      var last := order[|order| - 1];
      DeclsForOrdered(init, sizes);
      DeclsForContents(init, sizes);
      var prev := DeclsFor(init, sizes);
      forall i | 0 <= i < |prev| ensures Rank(prev[i].cells) < Rank(last) {
        var k :| 0 <= k < |init| && init[k] == prev[i].cells;
      }
    }
  }

  /** An array is declared exactly when its cache is not empty, with the
      cache's size as its length (so the mutex array and the class array are
      equally long), and the declarations follow the fixed order strings,
      class mutexes, classes, methods, fields, each at most once. */
  lemma HeaderDeclarations(sizes: CacheSizes)
    ensures var ds := Declarations(sizes);
            && (forall a :: Declares(ds, a) <==> CountFor(a, sizes) > 0)
            && (forall i :: 0 <= i < |ds| ==> ds[i].length == CountFor(ds[i].cells, sizes))
            && (forall i, j :: 0 <= i < j < |ds| ==> Rank(ds[i].cells) < Rank(ds[j].cells))
  {
    DeclsForContents(DeclarationOrder, sizes);
    DeclsForOrdered(DeclarationOrder, sizes);
    forall a ensures a in DeclarationOrder {
      assert DeclarationOrder[Rank(a)] == a;
    }
  }

  /** No C++ identifier is declared twice: distinct arrays have distinct names. */
  lemma HeaderNamesDistinct(sizes: CacheSizes)
    ensures var ds := Declarations(sizes);
            forall i, j :: 0 <= i < j < |ds| ==> ArrayName(ds[i].cells) != ArrayName(ds[j].cells)
  {
    HeaderDeclarations(sizes);
    var ds := Declarations(sizes);
    forall i, j | 0 <= i < j < |ds| ensures ArrayName(ds[i].cells) != ArrayName(ds[j].cells) {
      assert ds[i].cells != ds[j].cells;
    }
  }

  /** The declarations, array by array in the fixed order. */
  lemma DeclarationsInOrder(sizes: CacheSizes)
    ensures Declarations(sizes) ==
      DeclFor(StringCells, sizes.strings) + DeclFor(ClassMutexes, sizes.classes) + DeclFor(ClassCells, sizes.classes) +
      DeclFor(MethodCells, sizes.methods) + DeclFor(FieldCells, sizes.fields)
  {
    var order := DeclarationOrder;
    assert order[..4][..3] == order[..3];
    assert order[..3][..2] == order[..2];
    assert order[..2][..1] == order[..1];
    assert order[..1][..0] == [];
    assert DeclsFor(order, sizes) == DeclsFor(order[..4], sizes) + DeclFor(FieldCells, sizes.fields);
    assert DeclsFor(order[..4], sizes) == DeclsFor(order[..3], sizes) + DeclFor(MethodCells, sizes.methods);
    assert DeclsFor(order[..3], sizes) == DeclsFor(order[..2], sizes) + DeclFor(ClassCells, sizes.classes);
    assert DeclsFor(order[..2], sizes) == DeclsFor(order[..1], sizes) + DeclFor(ClassMutexes, sizes.classes);
    assert DeclsFor(order[..1], sizes) == [] + DeclFor(StringCells, sizes.strings);
  }

  /** One declaration is one indented line. */
  function DeclText(d: Decl): (r: string)
    ensures |r| > 6 && r[..4] == "    " && r[|r| - 2..] == ";\n"
    ensures '\n' !in r[..|r| - 1]
  {
    var line := ElementType(d.cells) + " " + ArrayName(d.cells) + "[" + NatToString(d.length) + "]";
    assert '\n' !in line;
    PrefixOfAppend("    ", line + ";\n");
    AppendAssoc("    ", line, ";\n");
    assert ("    " + line + ";\n")[..|"    " + line| + 1] == "    " + line + ";";
    "    " + line + ";\n"
  }

  /** What `addHeader` writes: a comment naming the class, the declarations,
      a blank line and the indentation of what follows. */
  function HeaderText(commentName: string, sizes: CacheSizes): string
  {
    "// " + commentName + "\n" + ConcatMap(Declarations(sizes), DeclText) + "\n" + "    "
  }

  /** The header opens with the comment line naming the class and ends with
      a blank line and the indentation of what follows. */
  lemma HeaderTextShape(commentName: string, sizes: CacheSizes)
    ensures var r := HeaderText(commentName, sizes);
            && |r| >= |commentName| + 9
            && r[..3] == "// " && r[3..3 + |commentName|] == commentName && r[3 + |commentName|] == '\n'
            && r[|r| - 5..] == "\n    "
  {
    CommentThenIndent(commentName, ConcatMap(Declarations(sizes), DeclText));
  }

  /** A comment line, any body, then a blank line and an indentation. */
  lemma CommentThenIndent(commentName: string, body: string)
    ensures var r := "// " + commentName + "\n" + body + "\n" + "    ";
            && |r| >= |commentName| + 9
            && r[..3] == "// " && r[3..3 + |commentName|] == commentName && r[3 + |commentName|] == '\n'
            && r[|r| - 5..] == "\n    "
  {
    var opening := "// " + commentName + "\n";
    var r := "// " + commentName + "\n" + body + "\n" + "    ";
    assert r == opening + (body + "\n" + "    ");
    PrefixOfAppend(opening, body + "\n" + "    ");
    assert opening[..3] == "// " && opening[3..3 + |commentName|] == commentName;
  }

  // ---------------------------------------------------------------------------
  // Registration routine

  /** The parts of the registration routine, in the order they are written. */
  datatype Block =
    | Prologue
    | InternString(key: string, cell: nat)
    | ClassSeparator
    | NativeRegistration(table: string)
    | StaticIfaceRegistration(table: string, ifaceClassPointer: string)
    | Epilogue

  const ReportOpening := "        if (env->ExceptionCheck()) { fprintf(stderr, \"Exception occured while registering native_jvm for %s\\n\", "
  const ReportClosing := "); fflush(stderr); env->ExceptionDescribe(); env->ExceptionClear(); }"

  /** The report of a pending exception after a RegisterNatives call. */
  function ExceptionReport(displayLiteral: string): (r: string)
    ensures |r| > 0 && r[|r| - 1] == '\n'
  {
    var text := ReportOpening + displayLiteral + ReportClosing;
    LastOfAppend(text, "\n");
    text + "\n"
  }

  // The fixed lines and line parts of the routine.
  const PrologueOpening := "    void __ngen_register_methods(JNIEnv *env, jclass clazz) {\n"
  const PoolFetch := "        string_pool = string_pool::get_pool();\n"
  const InternOpening := "        if (jstring str = env->NewStringUTF("
  const InternMiddle := ")) { if (jstring int_str = utils::get_interned(env, str)) { "
  const InternClosing := "(jstring) env->NewGlobalRef(int_str); env->DeleteLocalRef(str); env->DeleteLocalRef(int_str); } }"
  const NativeTableOpening := "        JNINativeMethod __ngen_methods[] = {\n"
  const TableClosing := "        };\n\n"
  const NativeRegisterCall :=
    "        if (clazz) env->RegisterNatives(clazz, __ngen_methods, sizeof(__ngen_methods) / sizeof(__ngen_methods[0]));\n"
  const ClassLoaderLookup := "        jobject classloader = utils::get_classloader_from_class(env, clazz);\n"
  const IfaceTableOpening := "        JNINativeMethod __ngen_static_iface_methods[] = {\n"
  const IfaceClassLookupOpening := "        jclass iface_methods_clazz = utils::find_class_wo_static(env, classloader, "
  const IfaceRegisterCall :=
    "        if (iface_methods_clazz) env->RegisterNatives(iface_methods_clazz, __ngen_static_iface_methods, " +
    "sizeof(__ngen_static_iface_methods) / sizeof(__ngen_static_iface_methods[0]));\n"

  /** Every part of the routine is whole lines, except the closing brace
      of the class's namespace that ends it. */
  function BlockText(b: Block, literal: string -> string, displayLiteral: string): (r: string)
    ensures |r| > 0 && r[|r| - 1] == (if b.Epilogue? then '}' else '\n')
  {
    match b
    case Prologue =>
      var text := PrologueOpening + PoolFetch;
      LastOfAppend(text, "\n");
      text + "\n"
    case InternString(key, cell) =>
      var text := InternOpening + literal(key) + InternMiddle + "cstrings[" + NatToString(cell) + "] = " + InternClosing;
      LastOfAppend(text, "\n");
      text + "\n"
    case ClassSeparator => "\n"
    case NativeRegistration(table) =>
      var text := NativeTableOpening + table + TableClosing + NativeRegisterCall + ExceptionReport(displayLiteral);
      LastOfAppend(text, "\n");
      text + "\n"
    case StaticIfaceRegistration(table, ifaceClassPointer) =>
      var text := ClassLoaderLookup + IfaceTableOpening + table + TableClosing +
        IfaceClassLookupOpening + ifaceClassPointer + ");\n" + IfaceRegisterCall;
      LastOfAppend(text, ExceptionReport(displayLiteral));
      text + ExceptionReport(displayLiteral)
    case Epilogue =>
      LastOfAppend("    }\n", "}");
      "    }\n" + "}"
  }

  /** The text of one block, with the string pool's literals and the
      class's display literal fixed. */
  function Render(literal: string -> string, displayLiteral: string): Block -> string
  {
    b => BlockText(b, literal, displayLiteral)
  }

  function PlanText(blocks: seq<Block>, literal: string -> string, displayLiteral: string): string
  {
    ConcatMap(blocks, Render(literal, displayLiteral))
  }

  /** One interning line per string-cache entry, in the cache's order. */
  function InternBlocks(entries: seq<CacheEntry>): (r: seq<Block>)
    ensures |r| == |entries|
  {
    if entries == [] then []
    else
      var last := entries[|entries| - 1];
      InternBlocks(entries[..|entries| - 1]) + [InternString(last.key, last.index)]
  }

  /** The `i`-th interning line fills the cell of the `i`-th cache entry. */
  lemma {:induction false} InternBlocksAt(entries: seq<CacheEntry>)
    ensures forall i :: 0 <= i < |entries| ==>
              InternBlocks(entries)[i] == InternString(entries[i].key, entries[i].index)
    decreases |entries|
  {
    if entries != [] {
      var init := entries[..|entries| - 1];
      InternBlocksAt(init);
      assert forall i :: 0 <= i < |init| ==> InternBlocks(entries)[i] == InternBlocks(init)[i];
    }
  }

  /** A block that is written only when `present` holds. */
  function Optional(present: bool, b: Block): seq<Block>
  {
    if present then [b] else []
  }

  /** The `getPointer` text of the companion class that holds the promoted
      static interface methods, named with dots. */
  function IfaceClassPointer(strings: NodeCacheView, provider: StaticClassProvider): string
  {
    strings.pointer(ReplaceChar(provider.currentClassName, '/', '.'))
  }

  /** The blocks `registerMethods` writes, in order. */
  function RegistrationPlan(strings: NodeCacheView, classes: NodeCacheView, nativeMethods: string,
                            provider: StaticClassProvider): seq<Block>
  {
    [Prologue] + InternBlocks(strings.entries) +
    Optional(classes.entries != [], ClassSeparator) +
    Optional(nativeMethods != "", NativeRegistration(nativeMethods)) +
    Optional(!provider.isEmpty, StaticIfaceRegistration(provider.methods, IfaceClassPointer(strings, provider))) +
    [Epilogue]
  }

  /** The string cells a plan fills, in the order it fills them. */
  function Interned(blocks: seq<Block>): seq<CacheEntry>
  {
    if blocks == [] then []
    else
      Interned(blocks[..|blocks| - 1]) +
      (match blocks[|blocks| - 1]
       case InternString(key, cell) => [CacheEntry(key, cell)]
       case _ => [])
  }

  lemma {:induction false} InternedAppend(a: seq<Block>, b: seq<Block>)
    ensures Interned(a + b) == Interned(a) + Interned(b)
    decreases |b|
  {
    if b == [] {
      assert a + b == a;
    } else {
      var b' := b[..|b| - 1];
      assert (a + b)[..|a + b| - 1] == a + b';
      InternedAppend(a, b');
    }
  }

  lemma InternedSingle(b: Block)
    ensures Interned([b]) == if b.InternString? then [CacheEntry(b.key, b.cell)] else []
  {
    assert [b][..0] == [];
  }

  /** A block other than an interning line adds no string cell. */
  lemma InternedSkips(blocks: seq<Block>, present: bool, b: Block)
    requires !b.InternString?
    ensures Interned(blocks + Optional(present, b)) == Interned(blocks)
  {
    InternedAppend(blocks, Optional(present, b));
    if present {
      InternedSingle(b);
    }
  }

  /** An interning line adds its cell at the end. */
  lemma InternedSnoc(blocks: seq<Block>, e: CacheEntry)
    ensures Interned(blocks + [InternString(e.key, e.index)]) == Interned(blocks) + [e]
  {
    assert (blocks + [InternString(e.key, e.index)])[..|blocks|] == blocks;
  }

  lemma {:induction false} InternedBlocks(entries: seq<CacheEntry>)
    ensures Interned(InternBlocks(entries)) == entries
    decreases |entries|
  {
    if entries != [] {
      var init := entries[..|entries| - 1];
      var last := entries[|entries| - 1];
      InternedBlocks(init);
      InternedSnoc(InternBlocks(init), last);
      assert init + [last] == entries;
    }
  }

  /** The routine fills exactly the string cells of the cache, in the
      cache's iteration order. */
  lemma RegistrationInternsCache(strings: NodeCacheView, classes: NodeCacheView, nativeMethods: string,
                                 provider: StaticClassProvider)
    ensures Interned(RegistrationPlan(strings, classes, nativeMethods, provider)) == strings.entries
  {
    var head := [Prologue] + InternBlocks(strings.entries);
    var c := Optional(classes.entries != [], ClassSeparator);
    var n := Optional(nativeMethods != "", NativeRegistration(nativeMethods));
    var iface := StaticIfaceRegistration(provider.methods, IfaceClassPointer(strings, provider));
    var t := Optional(!provider.isEmpty, iface);
    InternedAppend([Prologue], InternBlocks(strings.entries));
    InternedSingle(Prologue);
    InternedBlocks(strings.entries);
    InternedSkips(head, classes.entries != [], ClassSeparator);
    InternedSkips(head + c, nativeMethods != "", NativeRegistration(nativeMethods));
    InternedSkips(head + c + n, !provider.isEmpty, iface);
    InternedSkips(head + c + n + t, true, Epilogue);
  }

  /** Rank of a block in the fixed order of the routine. */
  function BlockRank(b: Block): nat
  {
    match b
    case Prologue => 0
    case InternString(_, _) => 1
    case ClassSeparator => 2
    case NativeRegistration(_) => 3
    case StaticIfaceRegistration(_, _) => 4
    case Epilogue => 5
  }

  /** Ranks never decrease along `blocks` and stay within `lo..hi`. */
  predicate RankedWithin(blocks: seq<Block>, lo: nat, hi: nat)
  {
    && (forall i :: 0 <= i < |blocks| ==> lo <= BlockRank(blocks[i]) <= hi)
    && (forall i, j :: 0 <= i < j < |blocks| ==> BlockRank(blocks[i]) <= BlockRank(blocks[j]))
  }

  lemma RankedAppend(a: seq<Block>, b: seq<Block>, lo: nat, mid: nat, hi: nat)
    requires lo <= mid <= hi
    requires RankedWithin(a, lo, mid) && RankedWithin(b, mid, hi)
    ensures RankedWithin(a + b, lo, hi)
  {
    forall i | 0 <= i < |a + b| ensures lo <= BlockRank((a + b)[i]) <= hi {
      if i < |a| {
        assert (a + b)[i] == a[i];
      } else {
        assert (a + b)[i] == b[i - |a|];
      }
    }
    forall i, j | 0 <= i < j < |a + b| ensures BlockRank((a + b)[i]) <= BlockRank((a + b)[j]) {
      if j < |a| {
      } else if i >= |a| {
        assert (a + b)[i] == b[i - |a|] && (a + b)[j] == b[j - |a|];
      } else {
        assert (a + b)[j] == b[j - |a|];
      }
    }
  }

  /** A block of a later part keeps the ranks in order. */
  lemma RankedAfter(blocks: seq<Block>, lo: nat, mid: nat, present: bool, b: Block)
    requires RankedWithin(blocks, lo, mid) && lo <= mid <= BlockRank(b)
    ensures RankedWithin(blocks + Optional(present, b), lo, BlockRank(b))
  {
    RankedAppend(blocks, Optional(present, b), lo, BlockRank(b), BlockRank(b));
  }

  /** The routine opens with the prologue, closes with the epilogue, and
      writes its parts in the fixed order: string interning, the class
      separator, native methods, static interface methods. */
  lemma RegistrationOrdered(strings: NodeCacheView, classes: NodeCacheView, nativeMethods: string,
                            provider: StaticClassProvider)
    ensures var plan := RegistrationPlan(strings, classes, nativeMethods, provider);
            && plan[0] == Prologue && plan[|plan| - 1] == Epilogue
            && forall i, j :: 0 <= i < j < |plan| ==> BlockRank(plan[i]) <= BlockRank(plan[j])
  {
    RegistrationRanked(strings, classes, nativeMethods, provider);
  }

  /** Every block of the plan has a rank between those of the prologue and
      the epilogue, and the ranks never decrease. */
  lemma RegistrationRanked(strings: NodeCacheView, classes: NodeCacheView, nativeMethods: string,
                           provider: StaticClassProvider)
    ensures var plan := RegistrationPlan(strings, classes, nativeMethods, provider);
            && |plan| > 1 && plan[0] == Prologue && plan[|plan| - 1] == Epilogue && RankedWithin(plan, 0, 5)
  {
    var head := [Prologue] + InternBlocks(strings.entries);
    var c := Optional(classes.entries != [], ClassSeparator);
    var n := Optional(nativeMethods != "", NativeRegistration(nativeMethods));
    var iface := StaticIfaceRegistration(provider.methods, IfaceClassPointer(strings, provider));
    var t := Optional(!provider.isEmpty, iface);
    var body := head + c + n + t;
    assert BlockRank(ClassSeparator) == 2 && BlockRank(NativeRegistration(nativeMethods)) == 3;
    assert BlockRank(iface) == 4 && BlockRank(Epilogue) == 5;
    HeadRanked(strings.entries);
    RankedAfter(head, 0, 1, classes.entries != [], ClassSeparator);
    RankedAfter(head + c, 0, 2, nativeMethods != "", NativeRegistration(nativeMethods));
    RankedAfter(head + c + n, 0, 3, !provider.isEmpty, iface);
    RankedAfter(body, 0, 4, true, Epilogue);
    assert body[0] == Prologue by {
      PrefixOfAppend(head, c + n + t);
      AppendAssoc(head, c, n);
      AppendAssoc(head, c + n, t);
    }
    PrefixOfAppend(body, [Epilogue]);
  }

  /** The prologue comes before the interning lines. */
  lemma HeadRanked(entries: seq<CacheEntry>)
    ensures RankedWithin([Prologue] + InternBlocks(entries), 0, 1)
  {
    assert RankedWithin([Prologue], 0, 1);
    InternBlocksAt(entries);
    assert RankedWithin(InternBlocks(entries), 1, 1);
    RankedAppend([Prologue], InternBlocks(entries), 0, 1, 1);
  }

  /** The class separator, the native-method block and the static-interface
      block each appear exactly when the class cache, the native-method
      table and the static-method provider are non-empty, and each carries
      its own table. */
  lemma RegistrationOptionalBlocks(strings: NodeCacheView, classes: NodeCacheView, nativeMethods: string,
                                   provider: StaticClassProvider)
    ensures var plan := RegistrationPlan(strings, classes, nativeMethods, provider);
            && (ClassSeparator in plan <==> classes.entries != [])
            && (NativeRegistration(nativeMethods) in plan <==> nativeMethods != "")
            && (StaticIfaceRegistration(provider.methods, IfaceClassPointer(strings, provider)) in plan <==> !provider.isEmpty)
            && (forall b :: b in plan && b.NativeRegistration? ==> b.table == nativeMethods)
            && (forall b :: b in plan && b.StaticIfaceRegistration? ==> b.table == provider.methods)
  {
    forall x ensures x in RegistrationPlan(strings, classes, nativeMethods, provider) <==>
                     x == Prologue || (x in InternBlocks(strings.entries) && x.InternString?) ||
                     (x == ClassSeparator && classes.entries != []) ||
                     (x == NativeRegistration(nativeMethods) && nativeMethods != "") ||
                     (x == StaticIfaceRegistration(provider.methods, IfaceClassPointer(strings, provider)) && !provider.isEmpty) ||
                     x == Epilogue
    {
      BlockInPlan(x, strings, classes, nativeMethods, provider);
      InternBlocksAt(strings.entries);
    }
  }

  /** Membership in the plan, part by part. */
  lemma BlockInPlan(x: Block, strings: NodeCacheView, classes: NodeCacheView, nativeMethods: string,
                    provider: StaticClassProvider)
    ensures x in RegistrationPlan(strings, classes, nativeMethods, provider) <==>
            x == Prologue || x in InternBlocks(strings.entries) ||
            x in Optional(classes.entries != [], ClassSeparator) ||
            x in Optional(nativeMethods != "", NativeRegistration(nativeMethods)) ||
            x in Optional(!provider.isEmpty, StaticIfaceRegistration(provider.methods, IfaceClassPointer(strings, provider))) ||
            x == Epilogue
  {
  }

  /** The routine's text is the prologue's, then that of the blocks in
      between, then the epilogue's. */
  lemma RegistrationTextFrame(strings: NodeCacheView, classes: NodeCacheView, nativeMethods: string,
                              provider: StaticClassProvider, literal: string -> string, displayLiteral: string)
    ensures var plan := RegistrationPlan(strings, classes, nativeMethods, provider);
            PlanText(plan, literal, displayLiteral) ==
              BlockText(Prologue, literal, displayLiteral) + PlanText(plan[1..|plan| - 1], literal, displayLiteral) +
              BlockText(Epilogue, literal, displayLiteral)
  {
    var plan := RegistrationPlan(strings, classes, nativeMethods, provider);
    RegistrationOrdered(strings, classes, nativeMethods, provider);
    ConcatMapFrame(plan, Render(literal, displayLiteral));
  }

  // ---------------------------------------------------------------------------
  // The builder

  class ClassSourceBuilder {
    const className: string
    const filename: string
    const helpers: Helpers
    /** Everything appended to the class's output file so far. */
    var written: string

    /** The file name is the escaped class name, with `/` turned into `_`,
        followed by `_` and the class index. */
    constructor (className: string, classIndex: int, helpers: Helpers)
      ensures this.className == className && this.helpers == helpers
      ensures filename == FileName(helpers.escapeCppName, className, classIndex)
      ensures written == ""
    {
      this.className := className;
      this.helpers := helpers;
      filename := FileName(helpers.escapeCppName, className, classIndex);
      written := "";
    }

    /** The literal naming the class with dots, used in exception reports. */
    function DisplayLiteral(): string
    {
      helpers.literal(ReplaceChar(className, '/', '.'))
    }

    /** `addHeader`: the class comment and one declaration per non-empty cache. */
    method AddHeader(strings: int, classes: int, methods: int, fields: int)
      modifies this
      ensures written == old(written) +
        HeaderText(helpers.escapeComment(className), CacheSizes(strings, classes, methods, fields))
    {
      var start := written + "// " + helpers.escapeComment(className) + "\n";
      written := start;
      ghost var decls: seq<Decl> := [];
      DeclareCells(start, decls, StringCells, strings);
      decls := decls + DeclFor(StringCells, strings);
      DeclareCells(start, decls, ClassMutexes, classes);
      decls := decls + DeclFor(ClassMutexes, classes);
      DeclareCells(start, decls, ClassCells, classes);
      decls := decls + DeclFor(ClassCells, classes);
      DeclareCells(start, decls, MethodCells, methods);
      decls := decls + DeclFor(MethodCells, methods);
      DeclareCells(start, decls, FieldCells, fields);
      decls := decls + DeclFor(FieldCells, fields);
      DeclarationsInOrder(CacheSizes(strings, classes, methods, fields));
      assert [] + DeclFor(StringCells, strings) == DeclFor(StringCells, strings);
      written := written + "\n";
      written := written + "    ";
      ghost var comment := "// " + helpers.escapeComment(className);
      ghost var decl := ConcatMap(decls, DeclText);
      AppendAssoc(old(written), comment + "\n" + decl + "\n", "    ");
      AppendAssoc(old(written), comment + "\n" + decl, "\n");
      AppendAssoc(old(written), comment + "\n", decl);
      AppendAssoc(old(written), comment, "\n");
      AppendAssoc(old(written), "// ", helpers.escapeComment(className));
    }

    /** Declares one cell array, sized by its cache, when that cache is not empty. */
    method DeclareCells(start: string, ghost decls: seq<Decl>, cells: CellArray, count: int)
      requires written == start + ConcatMap(decls, DeclText)
      modifies this
      ensures written == start + ConcatMap(decls + DeclFor(cells, count), DeclText)
    {
      if count > 0 {
        var d := Decl(cells, count);
        ConcatMapSnoc(decls, d, DeclText);
        AppendAssoc(start, ConcatMap(decls, DeclText), DeclText(d));
        written := written + DeclText(d);
      } else {
        assert decls + [] == decls;
      }
    }

    /** `addInstructions`: the text verbatim, then one line break. */
    method AddInstructions(instructions: string)
      modifies this
      ensures written == old(written) + instructions + "\n"
    {
      written := written + instructions;
      written := written + "\n";
    }

    /** `registerMethods`: the registration routine, block by block. */
    method RegisterMethods(strings: NodeCacheView, classes: NodeCacheView, nativeMethods: string,
                           staticClassProvider: StaticClassProvider)
      modifies this
      ensures written == old(written) +
        PlanText(RegistrationPlan(strings, classes, nativeMethods, staticClassProvider), helpers.literal, DisplayLiteral())
    {
      var start, render := written, Render(helpers.literal, DisplayLiteral());
      assert written == start + ConcatMap([], render);
      WriteBlock(start, [], Prologue, render);
      assert [] + [Prologue] == [Prologue];
      WriteInternLines(start, strings.entries, render);
      ghost var blocks := [Prologue] + InternBlocks(strings.entries);
      WriteBlockIf(start, blocks, classes.entries != [], ClassSeparator, render);
      blocks := blocks + Optional(classes.entries != [], ClassSeparator);
      WriteBlockIf(start, blocks, nativeMethods != "", NativeRegistration(nativeMethods), render);
      blocks := blocks + Optional(nativeMethods != "", NativeRegistration(nativeMethods));
      var iface := StaticIfaceRegistration(staticClassProvider.methods, IfaceClassPointer(strings, staticClassProvider));
      WriteBlockIf(start, blocks, !staticClassProvider.isEmpty, iface, render);
      blocks := blocks + Optional(!staticClassProvider.isEmpty, iface);
      WriteBlock(start, blocks, Epilogue, render);
      assert blocks + [Epilogue] == RegistrationPlan(strings, classes, nativeMethods, staticClassProvider);
    }

    /** One interning line per entry of the string cache, in its order. */
    method WriteInternLines(start: string, entries: seq<CacheEntry>, render: Block -> string)
      requires written == start + ConcatMap([Prologue], render)
      modifies this
      ensures written == start + ConcatMap([Prologue] + InternBlocks(entries), render)
    {
      for i := 0 to |entries|
        invariant written == start + ConcatMap([Prologue] + InternBlocks(entries[..i]), render)
      {
        var b := InternString(entries[i].key, entries[i].index);
        ghost var done := InternBlocks(entries[..i]);
        assert entries[..i + 1][..i] == entries[..i];
        assert InternBlocks(entries[..i + 1]) == done + [b];
        AppendAssoc([Prologue], done, [b]);
        WriteBlock(start, [Prologue] + done, b, render);
      }
      assert entries[..|entries|] == entries;
    }

    /** Writes a block when `present` holds. */
    method WriteBlockIf(start: string, ghost blocks: seq<Block>, present: bool, b: Block, render: Block -> string)
      requires written == start + ConcatMap(blocks, render)
      modifies this
      ensures written == start + ConcatMap(blocks + Optional(present, b), render)
    {
      if present {
        WriteBlock(start, blocks, b, render);
      } else {
        assert blocks + [] == blocks;
      }
    }

    /** Writes the text of one block after those already written. */
    method WriteBlock(start: string, ghost blocks: seq<Block>, b: Block, render: Block -> string)
      requires written == start + ConcatMap(blocks, render)
      modifies this
      ensures written == start + ConcatMap(blocks + [b], render)
    {
      ConcatMapSnoc(blocks, b, render);
      AppendAssoc(start, ConcatMap(blocks, render), render(b));
      written := written + render(b);
    }
  }
}
