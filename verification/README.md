# native-obfuscator: invokedynamic rewriting and per-class source assembly

This project models two parts of the bytecode-to-native translator in Dafny.

**The `invokedynamic` handler.** Each `invokedynamic` site of a translated method
becomes a reflective static call to a synthetic trampoline method.

- `process` does the following:
  - records the site in the context's map under the next ordinal;
  - works out the operand-stack offsets of the site's arguments;
  - emits a pop count;
  - builds the reflective argument list: `nullptr`, eight `0`s, then one entry per argument;
  - emits a once-only `GetStaticMethodID` lookup of the trampoline.
- `processIndy` adds the trampoline to the class. It is a private static final synthetic method. It loads its real arguments from local slot 9 on, re-issues the instruction and returns the result.
- Both name the trampoline by the same descriptor: the site's descriptor with prepended parameters. These are a marker object type and eight placeholder primitive types, which spell the ordinal in base 4.

**The class source builder.** It writes one generated source file per class by appending to a writer, in three steps:

1. A header that declares the per-class cell arrays of the non-empty caches.
2. The translated method bodies.
3. A registration routine. It interns every string of the string cache into its cell, then registers the native methods and the promoted static interface methods.

Modules:

- `TextUtil` (`text_util.dfy`) holds the text of a sequence of appended pieces, Java's decimal rendering of ints and `String.replace(char, char)`.
- `JvmTypes` (`jvm_types.dfy`) holds the JVM types as ASM's `Type` sees them:
  - sizes, sorts and typed opcodes;
  - method descriptors as defined in section 4.3 of the Java Virtual Machine Specification, with a renderer and a strict parser proved to be inverses in both directions.
- `InvokeDynamic` (`invoke_dynamic_handler.dfy`) is the handler. `MethodContext`, `InvokeDynamicHandler` and `ClassNode` are classes whose methods update their fields. The loops of the source are `for` loops proved against specification functions.
- `ClassSource` (`class_source_builder.dfy`) is the builder. `ClassSourceBuilder` is a class whose `written` field is the text appended to the writer so far.
  - Each writing method states its new `written` as the old one followed by a specification text.
  - That text is the rendering of a structured plan: a `seq<Decl>` for the header, a `seq<Block>` for the registration routine.
  - Presence, order and contents are proved about the plan.

The ordinal of a site is the size of the context's whole invoke-dynamics map (InvokeDynamicHandler.java line 43). It counts every site recorded so far, not only those of the owning method.

## Model

| member | source | states |
|---|---|---|
| InvokeDynamic.TypesForIndexShape | src/main/java/by/radioegor146/instructions/InvokeDynamicHandler.java:17-33 | exactly 8 placeholder types; element i is `PLACEHOLDER_TYPES[(n / 4^i) % 4]` (least significant digit first); each is int, char, short or byte, a one-slot field type |
| InvokeDynamic.PlaceholderDigitAt | src/main/java/by/radioegor146/instructions/InvokeDynamicHandler.java:26-33 | the i-th digit produced by the divide-by-4 loop is the i-th base-4 digit of the index |
| InvokeDynamic.PlaceholderDigitsDecode | src/main/java/by/radioegor146/instructions/InvokeDynamicHandler.java:26-33 | reading the placeholder types back as base-4 digits gives the ordinal back, for every ordinal the digits can hold |
| InvokeDynamic.TypesForIndexInjective | src/main/java/by/radioegor146/instructions/InvokeDynamicHandler.java:26-33 | two ordinals below 65536 with equal placeholder lists are equal |
| InvokeDynamic.PlaceholderDigitsPeriodic | src/main/java/by/radioegor146/instructions/InvokeDynamicHandler.java:26-33 | adding 4^count to the index leaves its count lowest digits unchanged |
| InvokeDynamic.TypesForIndexWrapsAround | src/main/java/by/radioegor146/instructions/InvokeDynamicHandler.java:26-33 | nothing guards the capacity: ordinal n + 65536 gets the same placeholders as n |
| InvokeDynamic.InvokeDynamicHandler.GetTypesForIndex | src/main/java/by/radioegor146/instructions/InvokeDynamicHandler.java:26-33 | the loop returns the base-4 placeholder encoding of the index: 8 types, each a placeholder type |
| InvokeDynamic.InvokeDynamicHandler.ModifyMethodDescriptor | src/main/java/by/radioegor146/instructions/InvokeDynamicHandler.java:35-39 | the result parses to the prepended types followed by the original arguments, in order, with the original return type |
| InvokeDynamic.MarkerIsFieldType | src/main/java/by/radioegor146/instructions/InvokeDynamicHandler.java:83 | the `<nativeDir>/InvokeDynamicPlaceholder` marker is a one-slot object type |
| InvokeDynamic.TrampolineDescriptorShape | src/main/java/by/radioegor146/instructions/InvokeDynamicHandler.java:82-85 | the trampoline descriptor parses to marker, eight placeholders, the site's arguments, and the site's return type |
| InvokeDynamic.TrampolineDescriptorsDistinct | src/main/java/by/radioegor146/instructions/InvokeDynamicHandler.java:82-85 | for ordinals below 65536, equal trampoline descriptors mean equal ordinals and equal site descriptors |
| InvokeDynamic.RecordSite | src/main/java/by/radioegor146/instructions/InvokeDynamicHandler.java:43-45 | the key (method name, current map size) is new, the map grows by exactly one, and every ordinal stays below the map size |
| InvokeDynamic.SumSizesAppend | src/main/java/by/radioegor146/instructions/InvokeDynamicHandler.java:54-58 | the slots of two argument lists add up |
| InvokeDynamic.SumSizesBounds | src/main/java/by/radioegor146/instructions/InvokeDynamicHandler.java:54-58 | n field-typed arguments take between n and 2n slots |
| InvokeDynamic.SumSizesSingleSlots | src/main/java/by/radioegor146/instructions/InvokeDynamicHandler.java:110-114 | arguments of one slot each take as many slots as there are arguments |
| InvokeDynamic.ArgOffsets | src/main/java/by/radioegor146/instructions/InvokeDynamicHandler.java:54-58 | one stack offset per argument |
| InvokeDynamic.ArgOffsetsStep | src/main/java/by/radioegor146/instructions/InvokeDynamicHandler.java:54-58 | the first offset is -1 and each later offset is the previous one minus the previous argument's size |
| InvokeDynamic.InvokeDynamicHandler.ComputeArgOffsets | src/main/java/by/radioegor146/instructions/InvokeDynamicHandler.java:54-58 | argument i gets offset -1 minus the slots of arguments 0..i-1; `-stackOffset - 1`, the pop count, is the slots of all arguments |
| InvokeDynamic.ReflectiveArgs | src/main/java/by/radioegor146/instructions/InvokeDynamicHandler.java:60-69 | 9 + n entries: `nullptr` first, then eight `0`, then entry 9 + i is the snippet for argument i's sort at argument i's offset |
| InvokeDynamic.InvokeDynamicHandler.BuildReflectiveArgs | src/main/java/by/radioegor146/instructions/InvokeDynamicHandler.java:60-69 | the three loops produce exactly the `, `-separated text of that argument list |
| InvokeDynamic.TwoIntSiteStack | src/main/java/by/radioegor146/instructions/InvokeDynamicHandler.java:54-72 | pop count 0 for no arguments and 2 for two ints; the offsets of two ints are -1 and -2; the list has 11 entries |
| InvokeDynamic.TwoIntDescriptor | src/main/java/by/radioegor146/instructions/InvokeDynamicHandler.java:47-48 | `(II)I` parses to two int arguments and an int result |
| InvokeDynamic.InvokeDynamicHandler.Process | src/main/java/by/radioegor146/instructions/InvokeDynamicHandler.java:41-97 | records the node under (method name, old map size) and nothing else; appends the pop count and then the lookup guarded by `if (!cmethods[id])`, whose descriptor is the trampoline descriptor and whose cell `id` is the method cache's id for the key (class, method, site descriptor, static); sets `INVOKESTATIC_<sort>`, `class_ptr` to the class cache's pointer, `methodid` to the method cache's pointer for that key, and `args`; keeps the context invariant |
| InvokeDynamic.PopCountText | src/main/java/by/radioegor146/instructions/InvokeDynamicHandler.java:71-72 | the `INVOKE_POPCNT` snippet gets `-stackOffset - 1`, where `stackOffset` is the last argument's offset minus its size (0 for no arguments) |
| InvokeDynamic.ArgListShape | src/main/java/by/radioegor146/instructions/InvokeDynamicHandler.java:60-69 | each entry adds `, ` and itself, so the text of a non-empty list starts with `, ` and has at least two characters per entry |
| InvokeDynamic.MethodLookup | src/main/java/by/radioegor146/instructions/InvokeDynamicHandler.java:87-94 | the generated lookup opens with `if (!cmethods[id]) { cmethods[id] = `: it runs only while the cell is empty and stores into that same cell |
| InvokeDynamic.TrampolineLookup | src/main/java/by/radioegor146/instructions/InvokeDynamicHandler.java:82-94 | the lookup passes the owning method's name and the rendering of the trampoline's method type: marker, placeholders and site arguments, site return type |
| InvokeDynamic.SameShapeSitesShareCell | src/main/java/by/radioegor146/instructions/InvokeDynamicHandler.java:78-94 | two sites of one method with the same descriptor and distinct ordinals below 65536 guard and fill the same cell, yet their lookups name different trampoline descriptors |
| InvokeDynamic.TrampolineKeysDistinct | src/main/java/by/radioegor146/instructions/InvokeDynamicHandler.java:78-94 | keyed by the trampoline's own descriptor, equal keys mean the same site record and the same site descriptor |
| InvokeDynamic.CallSiteFindsTrampoline | src/main/java/by/radioegor146/instructions/InvokeDynamicHandler.java:82-94 | the lookup `process` emits names exactly the name and descriptor of the trampoline `processIndy` adds for the same record |
| InvokeDynamic.ArgumentLoadsSlots | src/main/java/by/radioegor146/instructions/InvokeDynamicHandler.java:110-114 | one load per argument with its typed ILOAD opcode; the first reads slot 9 and each next one reads the previous slot plus the previous argument's size |
| InvokeDynamic.TrampolineBody | src/main/java/by/radioegor146/instructions/InvokeDynamicHandler.java:110-117 | n loads, then the re-issued `invokedynamic` with the site's name, descriptor and bootstrap, then the return opcode typed by the site's return type |
| InvokeDynamic.Trampoline | src/main/java/by/radioegor146/instructions/InvokeDynamicHandler.java:105-108 | the method's flags are exactly PRIVATE, STATIC, FINAL and SYNTHETIC; it is named after the owning method, with no signature and no exceptions, and has n + 2 instructions |
| InvokeDynamic.ArgumentLoadsReadParameters | src/main/java/by/radioegor146/instructions/InvokeDynamicHandler.java:110-114 | load i reads the local slot of the trampoline's parameter 9 + i with that parameter's typed opcode |
| InvokeDynamic.InvokeDynamicHandler.LoadArguments | src/main/java/by/radioegor146/instructions/InvokeDynamicHandler.java:110-114 | the loop emits one typed load per argument, from slot 9 on, advancing by each size; the final slot is 9 plus the slots of all arguments |
| InvokeDynamic.TrampolineReadsItsParameters | src/main/java/by/radioegor146/instructions/InvokeDynamicHandler.java:105-118 | the trampoline is PRIVATE, STATIC, FINAL and SYNTHETIC and carries the owning method's name; its descriptor is marker, placeholders, site arguments and site return type; its body is n loads of its own parameters, the re-issued instruction and a typed return |
| InvokeDynamic.TwoIntSiteTrampoline | src/main/java/by/radioegor146/instructions/InvokeDynamicHandler.java:101-108 | the trampoline of ordinal 0 for `(II)I` takes the marker and ten ints and returns an int |
| InvokeDynamic.InvokeDynamicHandler.ProcessIndy | src/main/java/by/radioegor146/instructions/InvokeDynamicHandler.java:99-119 | the class's method list becomes the old list followed by exactly one new method, the trampoline |
| JvmTypes.Size | src/main/java/by/radioegor146/instructions/InvokeDynamicHandler.java:57 | `getSize`: void takes 0 slots, long and double 2, every other type 1 |
| JvmTypes.Sort | src/main/java/by/radioegor146/instructions/InvokeDynamicHandler.java:49 | `getSort`: ASM's constants 0 to 10, with 9 exactly for arrays and 10 exactly for objects |
| JvmTypes.SortDistinguishesPrimitives | src/main/java/by/radioegor146/instructions/InvokeDynamicHandler.java:67 | distinct primitive types have distinct sorts, so `INVOKESTATIC_<sort>` and `INVOKE_ARG_<sort>` tell them apart |
| JvmTypes.TypedOpcode | src/main/java/by/radioegor146/instructions/InvokeDynamicHandler.java:112 | `getOpcode`: ILOAD becomes one of ILOAD to ALOAD and IRETURN one of IRETURN to RETURN; the int form exactly for boolean, char, byte, short and int, the reference form exactly for arrays and objects |
| JvmTypes.ParseFieldType | src/main/java/by/radioegor146/instructions/InvokeDynamicHandler.java:37-38 | a parsed field type leaves strictly less text behind |
| JvmTypes.FieldTypeRoundTrip | src/main/java/by/radioegor146/instructions/InvokeDynamicHandler.java:37-38 | parsing a rendered field type gives it back, with the following text untouched |
| JvmTypes.ArgumentsRoundTrip | src/main/java/by/radioegor146/instructions/InvokeDynamicHandler.java:37-38 | parsing rendered arguments up to `)` gives them back in order |
| JvmTypes.MethodDescriptorRoundTrip | src/main/java/by/radioegor146/instructions/InvokeDynamicHandler.java:37-38 | parsing the descriptor `getMethodDescriptor` renders gives back the argument types and the return type |
| JvmTypes.FieldTypeParseSound | src/main/java/by/radioegor146/instructions/InvokeDynamicHandler.java:37-38 | whatever field type the parser reads is valid and renders back to the text it was read from |
| JvmTypes.ArgumentsParseSound | src/main/java/by/radioegor146/instructions/InvokeDynamicHandler.java:37-38 | parsed arguments are valid and render back to the text up to `)` |
| JvmTypes.MethodDescriptorParseSound | src/main/java/by/radioegor146/instructions/InvokeDynamicHandler.java:37-38 | an accepted method descriptor renders back to itself |
| JvmTypes.MethodDescriptorInjective | src/main/java/by/radioegor146/instructions/InvokeDynamicHandler.java:37-38 | distinct valid method types never share a descriptor |
| TextUtil.IntToStringInjective | obfuscator/src/main/java/by/radioegor146/source/ClassSourceBuilder.java:29 | distinct ints have distinct `%d` renderings |
| ClassSource.FileName | obfuscator/src/main/java/by/radioegor146/source/ClassSourceBuilder.java:29 | the text after the last `_` of the file name is the `%d` rendering of the class index, whatever the escaped class name |
| ClassSource.FileNameDeterminesIndex | obfuscator/src/main/java/by/radioegor146/source/ClassSourceBuilder.java:29 | whatever the escaped class name, equal file names mean equal class indices |
| ClassSource.ClassSourceBuilder.constructor | obfuscator/src/main/java/by/radioegor146/source/ClassSourceBuilder.java:26-33 | the file name is the escaped class name, with `/` turned into `_`, then `_` and the index; nothing is written yet |
| ClassSource.DeclsForContents | obfuscator/src/main/java/by/radioegor146/source/ClassSourceBuilder.java:52-64 | an array is declared iff it is considered and its count is positive; each declaration's length is its count |
| ClassSource.DeclsForOrdered | obfuscator/src/main/java/by/radioegor146/source/ClassSourceBuilder.java:52-64 | declarations follow the order in which arrays are considered |
| ClassSource.HeaderDeclarations | obfuscator/src/main/java/by/radioegor146/source/ClassSourceBuilder.java:52-64 | an array is declared iff its count is > 0; its length is its count, so the mutex and class arrays are equally long; the order is strings, class mutexes, classes, methods, fields, each at most once |
| ClassSource.HeaderNamesDistinct | obfuscator/src/main/java/by/radioegor146/source/ClassSourceBuilder.java:52-64 | no array name is declared twice |
| ClassSource.DeclarationsInOrder | obfuscator/src/main/java/by/radioegor146/source/ClassSourceBuilder.java:52-64 | the declarations are, in turn, those of the string, mutex, class, method and field arrays |
| ClassSource.DeclText | obfuscator/src/main/java/by/radioegor146/source/ClassSourceBuilder.java:53-63 | a declaration is one line: four spaces of indentation, then `<type> <name>[<length>];` and a single line break |
| ClassSource.HeaderTextShape | obfuscator/src/main/java/by/radioegor146/source/ClassSourceBuilder.java:48-67 | the header opens with `// `, the escaped class name and a line break, and ends with a blank line followed by four spaces |
| ClassSource.ClassSourceBuilder.DeclareCells | obfuscator/src/main/java/by/radioegor146/source/ClassSourceBuilder.java:52-64 | one `if (count > 0)` step appends that array's declaration text exactly when its count is positive |
| ClassSource.ClassSourceBuilder.AddHeader | obfuscator/src/main/java/by/radioegor146/source/ClassSourceBuilder.java:43-80 | appends the class comment, the declaration text of the header plan, a blank line and four spaces, and nothing else |
| ClassSource.ClassSourceBuilder.AddInstructions | obfuscator/src/main/java/by/radioegor146/source/ClassSourceBuilder.java:82-85 | appends the text verbatim followed by exactly one `\n`; successive calls append in call order |
| ClassSource.ExceptionReport | obfuscator/src/main/java/by/radioegor146/source/ClassSourceBuilder.java:108-110 | the exception report naming the class's dotted literal is one whole line |
| ClassSource.BlockText | obfuscator/src/main/java/by/radioegor146/source/ClassSourceBuilder.java:90-127 | holds the literal text of each part of the routine; every part is whole lines except the closing `}` that ends the routine |
| ClassSource.InternBlocks | obfuscator/src/main/java/by/radioegor146/source/ClassSourceBuilder.java:93-97 | one interning line per string-cache entry |
| ClassSource.InternBlocksAt | obfuscator/src/main/java/by/radioegor146/source/ClassSourceBuilder.java:93-97 | line i interns the key of entry i into `cstrings[value of entry i]` |
| ClassSource.InternedBlocks | obfuscator/src/main/java/by/radioegor146/source/ClassSourceBuilder.java:93-97 | the interning lines fill exactly the cache's entries, in its iteration order |
| ClassSource.RegistrationInternsCache | obfuscator/src/main/java/by/radioegor146/source/ClassSourceBuilder.java:93-97 | the whole routine fills exactly the string cache's entries, in order, and no other string cell |
| ClassSource.RegistrationOrdered | obfuscator/src/main/java/by/radioegor146/source/ClassSourceBuilder.java:90-127 | the routine begins with the signature and `string_pool` fetch, ends with `    }\n}`, and keeps the order: interning, separator, native methods, static interface methods |
| ClassSource.RegistrationOptionalBlocks | obfuscator/src/main/java/by/radioegor146/source/ClassSourceBuilder.java:99-125 | the blank separator is present iff the class cache is non-empty; the native-method block iff `nativeMethods` is non-empty; the static-interface block iff the provider is non-empty; each carries its own table |
| ClassSource.RegistrationTextFrame | obfuscator/src/main/java/by/radioegor146/source/ClassSourceBuilder.java:90-127 | the routine's text is the prologue text, then the text of the middle blocks, then `    }\n}` |
| ClassSource.ClassSourceBuilder.WriteInternLines | obfuscator/src/main/java/by/radioegor146/source/ClassSourceBuilder.java:93-97 | the loop appends the interning line of every cache entry, in order |
| ClassSource.ClassSourceBuilder.WriteBlockIf | obfuscator/src/main/java/by/radioegor146/source/ClassSourceBuilder.java:99-125 | a guarded block's text is appended exactly when its guard holds |
| ClassSource.ClassSourceBuilder.WriteBlock | obfuscator/src/main/java/by/radioegor146/source/ClassSourceBuilder.java:90-127 | one block's text is appended after what is already written |
| ClassSource.ClassSourceBuilder.RegisterMethods | obfuscator/src/main/java/by/radioegor146/source/ClassSourceBuilder.java:87-132 | appends exactly the text of the registration plan, so the iff, order and interning lemmas above hold of what is written |

## Findings

| source | as written | input that shows it | evidently intended | confidence | as-written member | corrected member |
|---|---|---|---|---|---|---|
| src/main/java/by/radioegor146/instructions/InvokeDynamicHandler.java:78-94 | the method-id cell of a site is keyed by the site's own descriptor `node.desc`, so every site of one method with that descriptor shares one `cmethods[id]` cell and one `methodid` pointer | a method with two `invokedynamic` sites of descriptor `()Ljava/lang/Runnable;` (two lambdas of the same shape): once the first fills the cell, the second's `if (!cmethods[id])` lookup is skipped and it calls the first site's trampoline | key the cell by the trampoline's own descriptor `resultDesc`, which differs for every site | medium; not executed; assumes the method cache gives equal `CachedMethodInfo` keys one id, and `CachedMethodInfo` is not part of this model | InvokeDynamic.SameShapeSitesShareCell | InvokeDynamic.TrampolineKeysDistinct |

`Process` keeps the key the source uses, so the rest of the model describes the code as written. `TrampolineMethodInfo` is the key keyed by the trampoline. `TrampolineKeysDistinct` proves that key gives each site its own cell.

## Left out

- File I/O is not modelled: the output path, `Files.newBufferedWriter`, `getRsFilename`, `getFilename` and `close`. The writer is the `written` string field, and I/O errors are not modelled.
- Some helpers are function-valued parameters, because their code is not part of this model:
  - `Util.escapeCppNameString`, `Util.escapeCommentString` and the string pool's literal (`StringPool.get`);
  - the snippet templates (`INVOKE_ARG_<sort>`, `INVOKE_POPCNT`) and the trimmed try/catch block.
- `NodeCache` is a given sequence of (key, index) entries plus a `getPointer` function. Whether its iteration order is insertion order is not part of this model.
- `ClassSourceBuilder.RegisterMethods` treats `strings.getPointer(...)` for the interface companion class as a pure lookup. If that call adds a new key to the string cache, the added cell is not interned by this routine, and the model does not capture it.
- The class cache and the method cache are functions from key to id or pointer text. `Process` keys the method cache by class name, method name, the site's own descriptor and `true`, as the source does. How the cache assigns ids is not part of this model. As functions, the caches give equal keys the same answer, and the class pointer, looked up twice in the source, is the same text both times.
- Only the parts of `MethodContext` (owning method and class, native directory, site map, output) and of `ClassNode` (method list) that the handler touches are modelled.
- ASM's `Type` parsing is lenient and `InvokeDynamicInsnNode`'s bootstrap handle is opaque:
  - the model parses descriptors strictly;
  - `Process`, `ProcessIndy` and `ModifyMethodDescriptor` require a well-formed method descriptor, which is what a class file gives an `invokedynamic` instruction;
  - the bootstrap handle and its arguments are copied as given.
- The placeholder encoding does not reject ordinals of 65536 or more: the source has no check. `TypesForIndexWrapsAround` states the wrap-around, and the injectivity lemmas require ordinals below 65536.
- `InvokeDynamic.InvokeDynamicHandler.GetTypesForIndex` takes a `nat`, because the ordinal is always a map size. A negative Java `int` would index the type table out of bounds.
- The meaning of the emitted C++/JNI text, `std::mutex` locking, runtime concurrency and the JVM's dynamic linkage are not modelled. Only the produced text and structure are.
- The commented-out `#include`, namespace and `.hpp` code of `addHeader` and `registerMethods` is not modelled, because it is inactive.
