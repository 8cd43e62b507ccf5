/** The model scraper of `crud/models/table_scraper.rs`: it lists the `.rs` files of a
    directory, walks each file's syntax tree for struct declarations (descending into
    inline modules) and renders one `name\nfield:type\n...` message per struct.
    Reading directories and files and parsing Rust are inputs (`FileSystem`). */
module TableScraper {
  import opened Common

  // ---------------------------------------------------------------------------
  // The part of `syn`'s syntax tree the scraper looks at

  /** One segment of a type path; `Vec<u8>` is the segment `Vec` with arguments. */
  datatype PathSegment = PathSegment(ident: string, hasArguments: bool)

  /** A field's type: a path type (`String`, `std::string::String`, `Option<u32>`) or any
      other type syntax (references, tuples, arrays, ...). */
  datatype Type = TypePath(leadingColon: bool, segments: seq<PathSegment>) | OtherType

  /** A struct field; tuple-struct fields have no name. */
  datatype Field = Field(ident: Option<string>, ty: Type)

  /** A struct declaration with its outer attributes (`#[cfg(...)]`, `#[derive(...)]`). */
  datatype StructDecl = StructDecl(attrs: seq<string>, ident: string, fields: seq<Field>)

  /** A top-level or module item: a struct, a module with an inline body, a module
      declared as `mod x;` (its body lives in another file and has no content here),
      or anything else (fn, impl, use, macro call such as `cfg_if!`). */
  datatype Item = Struct(decl: StructDecl) | InlineMod(items: seq<Item>) | ExternalMod | OtherItem

  /** The `content` of a module item as `syn` exposes it. */
  function Content(item: Item): Option<seq<Item>>
    requires item.InlineMod? || item.ExternalMod?
  {
    if item.InlineMod? then Some(item.items) else None
  }

  /** The inputs the scraper reads from the file system and from the parser. */
  datatype FileSystem = FileSystem(
    readDir: string -> Result<seq<Result<string, string>>, string>,
    readToString: string -> Result<string, string>,
    parseFile: string -> Result<seq<Item>, string>)

  // ---------------------------------------------------------------------------
  // Field types and the struct message

  /** `syn::Path::is_ident`: a single segment without arguments and no leading `::`. */
  predicate IsIdent(ty: Type, name: string) {
    && ty.TypePath?
    && !ty.leadingColon
    && |ty.segments| == 1
    && !ty.segments[0].hasArguments
    && ty.segments[0].ident == name
  }

  /** The type label printed for a field. */
  function FieldType(ty: Type): (tag: string)
    ensures tag == "String" <==> IsIdent(ty, "String")
    ensures tag == "i32" <==> IsIdent(ty, "i32")
    ensures tag == "f64" <==> IsIdent(ty, "f64")
    ensures tag == "Custom" <==> !IsIdent(ty, "String") && !IsIdent(ty, "i32") && !IsIdent(ty, "f64")
  {
    if IsIdent(ty, "String") then "String"
    else if IsIdent(ty, "i32") then "i32"
    else if IsIdent(ty, "f64") then "f64"
    else "Custom"
  }

  function FieldName(f: Field): string {
    match f.ident
    case Some(name) => name
    case None => "Unnamed"
  }

  /** The text of one field line, without its terminating newline. */
  function FieldText(f: Field): string {
    FieldName(f) + ":" + FieldType(f.ty)
  }

  /** The texts `f(x)` of a sequence, concatenated in order. */
  function ConcatMap<T>(xs: seq<T>, f: T -> string): string {
    if xs == [] then ""
    else ConcatMap(xs[..|xs| - 1], f) + f(xs[|xs| - 1])
  }

  /** The field lines of a message, in field order. */
  function FieldLines(fields: seq<Field>): string {
    ConcatMap(fields, FieldLine)
  }

  /** One field line, with its terminating newline. */
  function FieldLine(f: Field): string {
    FieldText(f) + "\n"
  }

  /** The message for one struct. */
  function StructMessage(d: StructDecl): string {
    d.ident + "\n" + FieldLines(d.fields)
  }

  lemma ConcatMapPrefix<T>(xs: seq<T>, f: T -> string, i: nat)
    requires i < |xs|
    ensures ConcatMap(xs[..i + 1], f) == ConcatMap(xs[..i], f) + f(xs[i])
  {
    assert xs[..i + 1][..i] == xs[..i];
  }

  /** `generate_struct_message`: never fails. */
  method GenerateStructMessage(structName: string, fields: seq<Field>) returns (r: Result<string, string>)
    ensures r == Ok(structName + "\n" + FieldLines(fields))
  {
    var message := structName + "\n";
    // the field lines appended to `message` so far
    var lines := "";
    for i := 0 to |fields|
      invariant lines == FieldLines(fields[..i])
    {
      ConcatMapPrefix(fields, FieldLine, i);
      lines := lines + FieldLine(fields[i]);
    }
    assert fields[..|fields|] == fields;
    message := message + lines;
    return Ok(message);
  }

  // Reading a message back line by line

  /** Index of the first newline of `s`, or `|s|` when there is none. */
  function NewlineAt(s: string): (k: nat)
    ensures k <= |s|
    ensures forall j :: 0 <= j < k ==> s[j] != '\n'
    ensures k < |s| ==> s[k] == '\n'
  {
    if s == [] || s[0] == '\n' then 0 else 1 + NewlineAt(s[1..])
  }

  /** The lines of a text; a final line needs no terminating newline. */
  function LinesOf(s: string): seq<string>
    decreases |s|
  {
    if s == [] then []
    else
      var k := NewlineAt(s);
      if k == |s| then [s] else [s[..k]] + LinesOf(s[k + 1..])
  }

  lemma LinesOfCons(a: string, b: string)
    requires '\n' !in a
    ensures LinesOf(a + "\n" + b) == [a] + LinesOf(b)
  {
    var s := a + "\n" + b;
    var k := NewlineAt(s);
    assert s[|a|] == '\n';
    assert forall j :: 0 <= j < |a| ==> s[j] == a[j];
    assert k == |a|;
    assert s[..k] == a;
    assert s[k + 1..] == b;
  }

  lemma {:induction false} ConcatMapFront<T>(xs: seq<T>, f: T -> string)
    requires xs != []
    ensures ConcatMap(xs, f) == f(xs[0]) + ConcatMap(xs[1..], f)
    decreases |xs|
  {
    var n := |xs|;
    if n == 1 {
      assert xs[..0] == [];
      assert xs[1..] == [];
    } else {
      var init := xs[..n - 1];
      var tail := xs[1..];
      ConcatMapFront(init, f);
      assert init[0] == xs[0];
      assert tail[..n - 2] == init[1..];
      assert tail[n - 2] == xs[n - 1];
    }
  }

  predicate NamesWithoutNewline(fields: seq<Field>) {
    forall f :: f in fields && f.ident.Some? ==> '\n' !in f.ident.value
  }

  /** One text per field, in field order. */
  function FieldTexts(fields: seq<Field>): (texts: seq<string>)
    ensures |texts| == |fields|
    ensures forall i :: 0 <= i < |fields| ==> texts[i] == FieldText(fields[i])
  {
    if fields == [] then [] else [FieldText(fields[0])] + FieldTexts(fields[1..])
  }

  lemma FieldTextOneLine(f: Field)
    requires f.ident.Some? ==> '\n' !in f.ident.value
    ensures '\n' !in FieldText(f)
  {
    var ty := FieldType(f.ty);
    assert '\n' !in ty;
    assert '\n' !in FieldName(f);
  }

  lemma {:induction false} LinesOfFieldLines(fields: seq<Field>)
    requires NamesWithoutNewline(fields)
    ensures LinesOf(FieldLines(fields)) == FieldTexts(fields)
    decreases |fields|
  {
    if fields == [] {
    } else {
      ConcatMapFront(fields, FieldLine);
      var t := FieldText(fields[0]);
      FieldTextOneLine(fields[0]);
      LinesOfCons(t, FieldLines(fields[1..]));
      assert FieldLine(fields[0]) + FieldLines(fields[1..]) == t + "\n" + FieldLines(fields[1..]);
      assert NamesWithoutNewline(fields[1..]) by {
        forall f | f in fields[1..] ensures f in fields { }
      }
      LinesOfFieldLines(fields[1..]);
    }
  }

  /** The message is the struct name on the first line, then exactly one `field:type`
      line per field, in field order (identifiers never contain a newline). */
  lemma MessageLines(structName: string, fields: seq<Field>)
    requires '\n' !in structName
    requires NamesWithoutNewline(fields)
    ensures LinesOf(structName + "\n" + FieldLines(fields)) == [structName] + FieldTexts(fields)
    ensures |LinesOf(structName + "\n" + FieldLines(fields))| == |fields| + 1
  {
    LinesOfCons(structName, FieldLines(fields));
    LinesOfFieldLines(fields);
  }

  // ---------------------------------------------------------------------------
  // Collecting struct declarations

  /** The structs one item contributes. */
  function ItemStructs(item: Item): seq<StructDecl>
    decreases item, 1
  {
    match item
    case Struct(d) => [d]
    case InlineMod(items) => Collect(items)
    case ExternalMod => []
    case OtherItem => []
  }

  /** The structs of a module body; `mod x;` (no inline body) has none. */
  function ModStructs(content: Option<seq<Item>>): seq<StructDecl> {
    match content
    case None => []
    case Some(items) => Collect(items)
  }

  /** The structs of a list of items, in source order, nested modules spliced in place. */
  function Collect(items: seq<Item>): seq<StructDecl>
    decreases items, 2
  {
    if items == [] then []
    else Collect(items[..|items| - 1]) + ItemStructs(items[|items| - 1])
  }

  /** `parse_mod_items`: never fails. */
  method ParseModItems(content: Option<seq<Item>>) returns (r: Result<seq<StructDecl>, string>)
    ensures r == Ok(ModStructs(content))
    decreases if content.Some? then content.value else []
  {
    var structs: seq<StructDecl> := [];
    if content.Some? {
      var items := content.value;
      for i := 0 to |items|
        invariant structs == Collect(items[..i])
      {
        assert items[..i + 1][..i] == items[..i];
        match items[i]
        case Struct(d) =>
          structs := structs + [d];
        case InlineMod(sub) =>
          // the `?` of the source never fires: the nested call always succeeds
          var nested := ParseModItems(Some(sub));
          structs := structs + nested.value;
        case ExternalMod =>
          var nested := ParseModItems(None);
          structs := structs + nested.value;
        case OtherItem =>
      }
      assert items[..|items|] == items;
    }
    return Ok(structs);
  }

  /** The outcome of reading, parsing and scanning one file. */
  function FileStructs(fs: FileSystem, path: string): Result<seq<StructDecl>, string> {
    match fs.readToString(path)
    case Err(e) => Err("Errore nella lettura del file: " + e)
    case Ok(text) =>
      match fs.parseFile(text)
      case Err(e) => Err("Errore nel parsing del file: " + e)
      case Ok(items) => Ok(Collect(items))
  }

  /** `parse_rs_file` */
  method ParseRsFile(path: string, fs: FileSystem) returns (r: Result<seq<StructDecl>, string>)
    ensures r == FileStructs(fs, path)
  {
    var text :- MapErr(fs.readToString(path), "Errore nella lettura del file: ");
    var items :- MapErr(fs.parseFile(text), "Errore nel parsing del file: ");
    var structs: seq<StructDecl> := [];
    for i := 0 to |items|
      invariant structs == Collect(items[..i])
    {
      assert items[..i + 1][..i] == items[..i];
      match items[i]
      case InlineMod(_) =>
        var nested := ParseModItems(Content(items[i]));
        structs := structs + nested.value;
      case ExternalMod =>
        var nested := ParseModItems(Content(items[i]));
        structs := structs + nested.value;
      case Struct(d) =>
        structs := structs + [d];
      case OtherItem =>
    }
    assert items[..|items|] == items;
    return Ok(structs);
  }

  // Properties of the collection

  lemma {:induction false} CollectAppend(a: seq<Item>, b: seq<Item>)
    ensures Collect(a + b) == Collect(a) + Collect(b)
    decreases |b|
  {
    if b == [] {
      assert a + b == a;
    } else {
      var n := |b|;
      CollectAppend(a, b[..n - 1]);
      assert (a + b)[..|a + b| - 1] == a + b[..n - 1];
      assert (a + b)[|a + b| - 1] == b[n - 1];
    }
  }

  /** Order and splicing: the structs of a nested inline module appear exactly where the
      module stands; an item that is neither struct nor module contributes nothing. */
  lemma SpliceAt(before: seq<Item>, item: Item, after: seq<Item>)
    ensures Collect(before + [item] + after) == Collect(before) + ItemStructs(item) + Collect(after)
  {
    CollectAppend(before + [item], after);
    CollectAppend(before, [item]);
    assert [item][..0] == [];
  }

  /** `d` is declared in `items`, at top level or inside inline modules. */
  predicate Declares(items: seq<Item>, d: StructDecl)
    decreases items
  {
    exists i :: 0 <= i < |items| && ItemDeclares(items[i], d)
  }

  predicate ItemDeclares(item: Item, d: StructDecl)
    decreases item
  {
    match item
    case Struct(s) => s == d
    case InlineMod(items) => Declares(items, d)
    case ExternalMod => false
    case OtherItem => false
  }

  /** Every struct the scanner sees is returned, whatever its attributes (`cfg` gates
      included), and only those. */
  lemma {:induction false} CollectIffDeclared(items: seq<Item>, d: StructDecl)
    ensures d in Collect(items) <==> Declares(items, d)
    decreases items, 1
  {
    if items == [] {
    } else {
      var n := |items|;
      var init := items[..n - 1];
      CollectIffDeclared(init, d);
      ItemStructsIffDeclares(items[n - 1], d);
      if Declares(items, d) {
        var i :| 0 <= i < n && ItemDeclares(items[i], d);
        if i < n - 1 {
          assert init[i] == items[i];
        }
      }
      if Declares(init, d) {
        var i :| 0 <= i < n - 1 && ItemDeclares(init[i], d);
        assert items[i] == init[i];
      }
    }
  }

  lemma {:induction false} ItemStructsIffDeclares(item: Item, d: StructDecl)
    ensures d in ItemStructs(item) <==> ItemDeclares(item, d)
    decreases item, 0
  {
    match item
    case Struct(s) =>
    case InlineMod(items) =>
      CollectIffDeclared(items, d);
    case ExternalMod =>
    case OtherItem =>
  }

  // ---------------------------------------------------------------------------
  // Directory listing

  /** The file name of a path: what follows the last `/`. */
  function FileName(path: string): string
    decreases |path|
  {
    if path == [] then []
    else if path[|path| - 1] == '/' then []
    else FileName(path[..|path| - 1]) + [path[|path| - 1]]
  }

  /** Index of the last `.` of a name, if any. */
  function LastDot(name: string): Option<nat>
    decreases |name|
  {
    if name == [] then None
    else if name[|name| - 1] == '.' then Some(|name| - 1)
    else LastDot(name[..|name| - 1])
  }

  lemma {:induction false} LastDotBound(name: string)
    ensures LastDot(name).Some? ==> LastDot(name).value < |name| && name[LastDot(name).value] == '.'
    decreases |name|
  {
    if name != [] && name[|name| - 1] != '.' {
      LastDotBound(name[..|name| - 1]);
    }
  }

  /** `Path::extension`: the text after the last dot of the file name, unless that dot
      starts the name (`.rs` has no extension) or the name is `..`. */
  function Extension(path: string): Option<string> {
    var name := FileName(path);
    LastDotBound(name);
    if name == ".." then None
    else match LastDot(name)
      case None => None
      case Some(i) => if i == 0 then None else Some(name[i + 1..])
  }

  predicate IsRsFile(path: string) {
    Extension(path) == Some("rs")
  }

  /** The paths of the `.rs` entries of a listing, in listing order. */
  function RsFiles(entries: seq<Result<string, string>>): seq<string> {
    if entries == [] then []
    else
      var last := entries[|entries| - 1];
      RsFiles(entries[..|entries| - 1]) + (if last.Ok? && IsRsFile(last.value) then [last.value] else [])
  }

  /** The outcome of `read_rs_dir` on a listing outcome: the first failure, or the `.rs` paths. */
  function DirFiles(listing: Result<seq<Result<string, string>>, string>): Result<seq<string>, string> {
    match listing
    case Err(e) => Err("Errore nella lettura della cartella: " + e)
    case Ok(entries) =>
      if exists i :: 0 <= i < |entries| && entries[i].Err? then
        var k := FirstErr(entries);
        Err("Errore nell'elenco dei file: " + entries[k].error)
      else Ok(RsFiles(entries))
  }

  /** Index of the first failed entry. */
  function FirstErr(entries: seq<Result<string, string>>): (k: nat)
    requires exists i :: 0 <= i < |entries| && entries[i].Err?
    ensures k < |entries| && entries[k].Err?
    ensures forall j :: 0 <= j < k ==> entries[j].Ok?
  {
    if entries[0].Err? then 0
    else
      assert exists i :: 0 <= i < |entries[1..]| && entries[1..][i].Err? by {
        var i :| 0 <= i < |entries| && entries[i].Err?;
        assert entries[1..][i - 1] == entries[i];
      }
      1 + FirstErr(entries[1..])
  }

  /** `read_rs_dir` */
  method ReadRsDir(directory: string, fs: FileSystem) returns (r: Result<seq<string>, string>)
    ensures r == DirFiles(fs.readDir(directory))
  {
    var entries :- MapErr(fs.readDir(directory), "Errore nella lettura della cartella: ");
    var files: seq<string> := [];
    for i := 0 to |entries|
      invariant forall j :: 0 <= j < i ==> entries[j].Ok?
      invariant files == RsFiles(entries[..i])
    {
      assert entries[..i + 1][..i] == entries[..i];
      match entries[i]
      case Err(e) =>
        assert FirstErr(entries) == i;
        return Err("Errore nell'elenco dei file: " + e);
      case Ok(path) =>
        if Extension(path) == Some("rs") {
          files := files + [path];
        }
    }
    assert entries[..|entries|] == entries;
    return Ok(files);
  }

  /** The listing keeps exactly the `.rs` entries, and a failed entry fails the listing
      with the first such entry's message. */
  lemma DirFilesSpec(entries: seq<Result<string, string>>, path: string)
    ensures DirFiles(Ok(entries)).Ok? <==> forall i :: 0 <= i < |entries| ==> entries[i].Ok?
    ensures DirFiles(Ok(entries)).Ok? ==>
      (path in DirFiles(Ok(entries)).value <==> Ok(path) in entries && IsRsFile(path))
  {
    RsFilesMembers(entries, path);
  }

  lemma {:induction false} RsFilesMembers(entries: seq<Result<string, string>>, path: string)
    ensures path in RsFiles(entries) <==> Ok(path) in entries && IsRsFile(path)
    decreases |entries|
  {
    if entries != [] {
      var n := |entries|;
      RsFilesMembers(entries[..n - 1], path);
      assert entries == entries[..n - 1] + [entries[n - 1]];
    }
  }

  lemma {:induction false} FileNameSuffix(dir: string, name: string)
    requires '/' !in name
    ensures FileName(dir + name) == FileName(dir) + name
    decreases |name|
  {
    if name == [] {
      assert dir + name == dir;
    } else {
      var n := |name|;
      FileNameSuffix(dir, name[..n - 1]);
      assert (dir + name)[..|dir + name| - 1] == dir + name[..n - 1];
      assert name == name[..n - 1] + [name[n - 1]];
    }
  }

  lemma {:induction false} LastDotSuffix(s: string, ext: string)
    requires '.' !in ext
    ensures LastDot(s + ext) == LastDot(s)
    decreases |ext|
  {
    if ext != [] {
      var n := |ext|;
      LastDotSuffix(s, ext[..n - 1]);
      assert (s + ext)[..|s + ext| - 1] == s + ext[..n - 1];
    } else {
      assert s + ext == s;
    }
  }

  /** The extension of `dir/stem.ext` is `ext`, except for a hidden file whose name starts
      with its only dot (`.rs`) and for `..`. */
  lemma ExtensionOfName(dir: string, stem: string, ext: string)
    requires '/' !in stem && '/' !in ext && '.' !in ext
    ensures Extension(dir + "/" + stem + "." + ext)
         == if stem == [] || (stem == "." && ext == []) then None else Some(ext)
  {
    var name := stem + "." + ext;
    assert dir + "/" + stem + "." + ext == (dir + "/") + name;
    FileNameSuffix(dir + "/", name);
    assert FileName(dir + "/") == [];
    LastDotSuffix(stem + ".", ext);
    assert LastDot(stem + ".") == Some(|stem|);
    assert name[|stem| + 1..] == ext;
    assert |ext| > 0 ==> name[|name| - 1] == ext[|ext| - 1];
    assert (stem == "." && ext == []) <==> name == "..";
    assert FileName(dir + "/" + stem + "." + ext) == name;
    assert LastDot(name) == Some(|stem|);
  }

  /** `dir/stem.rs` is scraped. */
  lemma RsFileNames(dir: string, stem: string)
    requires '/' !in stem && '.' !in stem && stem != []
    ensures IsRsFile(dir + "/" + stem + ".rs")
  {
    ExtensionOfName(dir, stem, "rs");
    assert dir + "/" + stem + ".rs" == dir + "/" + stem + "." + "rs";
  }

  /** `dir/.rs` (a hidden file) and `dir/stem.rs.bak` are not scraped. */
  lemma NotRsFileNames(dir: string, stem: string)
    requires '/' !in stem && '.' !in stem && stem != []
    ensures !IsRsFile(dir + "/" + ".rs")
    ensures !IsRsFile(dir + "/" + stem + ".rs" + ".bak")
  {
    ExtensionOfName(dir, [], "rs");
    assert dir + "/" + ".rs" == dir + "/" + [] + "." + "rs";
    ExtensionOfName(dir, stem + ".rs", "bak");
    assert dir + "/" + stem + ".rs" + ".bak" == dir + "/" + (stem + ".rs") + "." + "bak";
  }

  // ---------------------------------------------------------------------------
  // Scraping a directory

  /** The messages for a list of structs, in order. */
  function StructMessages(decls: seq<StructDecl>): seq<string> {
    if decls == [] then []
    else StructMessages(decls[..|decls| - 1]) + [StructMessage(decls[|decls| - 1])]
  }

  predicate AllParse(fs: FileSystem, files: seq<string>) {
    forall i :: 0 <= i < |files| ==> FileStructs(fs, files[i]).Ok?
  }

  /** The messages printed for all files, in file order then struct order. */
  function AllMessages(fs: FileSystem, files: seq<string>): seq<string>
    requires AllParse(fs, files)
  {
    if files == [] then []
    else
      AllMessages(fs, files[..|files| - 1]) + StructMessages(FileStructs(fs, files[|files| - 1]).value)
  }

  /** The inner loop of `scrape` over the structs of one file. */
  method RenderStructs(decls: seq<StructDecl>) returns (messages: seq<string>)
    ensures messages == StructMessages(decls)
  {
    messages := [];
    for j := 0 to |decls|
      invariant messages == StructMessages(decls[..j])
    {
      assert decls[..j + 1][..j] == decls[..j];
      // generate_struct_message always succeeds, so its eprintln branch never runs
      var m := GenerateStructMessage(decls[j].ident, decls[j].fields);
      messages := messages + [m.value];
    }
    assert decls[..|decls|] == decls;
  }

  /** What `scrape` promises once the directory listing succeeded with `files`: the
      files it started on are a prefix of the listing, all but the last of them parsed,
      it succeeds exactly when every file parsed (and then it has printed every struct
      message, in order), and otherwise it fails with the last file's error. */
  predicate ScrapeOutcome(fs: FileSystem, files: seq<string>, r: Result<seq<string>, string>, processed: seq<string>) {
    && processed <= files
    && (forall i :: 0 <= i < |processed| - 1 ==> FileStructs(fs, processed[i]).Ok?)
    && (r.Ok? <==> processed == files && AllParse(fs, files))
    && (r.Ok? ==> AllParse(fs, files) && r.value == AllMessages(fs, files))
    && (r.Err? ==> processed != [] && FileStructs(fs, processed[|processed| - 1]) == Err(r.error))
  }

  lemma ScrapeStoppedAt(fs: FileSystem, files: seq<string>, i: nat, error: string)
    requires i < |files|
    requires AllParse(fs, files[..i])
    requires FileStructs(fs, files[i]) == Err(error)
    ensures ScrapeOutcome(fs, files, Err(error), files[..i + 1])
  {
    var processed := files[..i + 1];
    forall j | 0 <= j < |processed| - 1
      ensures FileStructs(fs, processed[j]).Ok?
    {
      assert processed[j] == files[..i][j];
    }
    assert !AllParse(fs, files);
  }

  lemma ScrapeCompleted(fs: FileSystem, files: seq<string>)
    requires AllParse(fs, files)
    ensures ScrapeOutcome(fs, files, Ok(AllMessages(fs, files)), files)
  {
  }

  /** The outcome of scraping `files` in order: the first failing file's error, or every
      struct message of every file. */
  function ScrapeFiles(fs: FileSystem, files: seq<string>): Result<seq<string>, string>
    decreases |files|
  {
    if files == [] then Ok([])
    else
      match ScrapeFiles(fs, files[..|files| - 1])
      case Err(e) => Err(e)
      case Ok(messages) =>
        match FileStructs(fs, files[|files| - 1])
        case Err(e) => Err(e)
        case Ok(decls) => Ok(messages + StructMessages(decls))
  }

  /** The outcome of scraping `directory`: a listing error, or `ScrapeFiles` of its `.rs`
      files. */
  function ScrapeResult(fs: FileSystem, directory: string): Result<seq<string>, string> {
    match DirFiles(fs.readDir(directory))
    case Err(e) => Err(e)
    case Ok(files) => ScrapeFiles(fs, files)
  }

  /** When every file parses, scraping them succeeds with all their messages. */
  lemma {:induction false} ScrapeFilesAllParse(fs: FileSystem, files: seq<string>)
    requires AllParse(fs, files)
    ensures ScrapeFiles(fs, files) == Ok(AllMessages(fs, files))
    decreases |files|
  {
    if files != [] {
      var init := files[..|files| - 1];
      assert AllParse(fs, init) by {
        forall i | 0 <= i < |init|
          ensures FileStructs(fs, init[i]).Ok?
        {
          assert init[i] == files[i];
        }
      }
      ScrapeFilesAllParse(fs, init);
    }
  }

  /** When file `i` is the first that fails, scraping fails with its error, whatever
      follows it. */
  lemma {:induction false} ScrapeFilesStops(fs: FileSystem, files: seq<string>, i: nat, error: string)
    requires i < |files|
    requires AllParse(fs, files[..i])
    requires FileStructs(fs, files[i]) == Err(error)
    ensures ScrapeFiles(fs, files) == Err(error)
    decreases |files|
  {
    var init := files[..|files| - 1];
    if |files| == i + 1 {
      assert init == files[..i];
      ScrapeFilesAllParse(fs, init);
    } else {
      assert init[..i] == files[..i];
      assert init[i] == files[i];
      ScrapeFilesStops(fs, init, i, error);
    }
  }

  /** `scrape`: the messages the source prints are returned with the result; `processed`
      lists the files it started on. The first failure ends the scrape. */
  method Scrape(directory: string, fs: FileSystem) returns (r: Result<seq<string>, string>, processed: seq<string>)
    ensures DirFiles(fs.readDir(directory)).Err? ==>
      r == Err(DirFiles(fs.readDir(directory)).error) && processed == []
    ensures DirFiles(fs.readDir(directory)).Ok? ==>
      ScrapeOutcome(fs, DirFiles(fs.readDir(directory)).value, r, processed)
    ensures r == ScrapeResult(fs, directory)
  {
    processed := [];
    var files := ReadRsDir(directory, fs);
    if files.Err? {
      return Err(files.error), processed;
    }
    var paths := files.value;
    var messages: seq<string> := [];
    for i := 0 to |paths|
      invariant processed == paths[..i]
      invariant AllParse(fs, processed)
      invariant messages == AllMessages(fs, processed)
    {
      processed := processed + [paths[i]];
      assert processed == paths[..i + 1];
      var structs := ParseRsFile(paths[i], fs);
      if structs.Err? {
        ScrapeStoppedAt(fs, paths, i, structs.error);
        ScrapeFilesStops(fs, paths, i, structs.error);
        return Err(structs.error), processed;
      }
      var fileMessages := RenderStructs(structs.value);
      assert processed[..|processed| - 1] == paths[..i];
      messages := messages + fileMessages;
    }
    assert paths[..|paths|] == paths;
    ScrapeCompleted(fs, paths);
    ScrapeFilesAllParse(fs, paths);
    return Ok(messages), processed;
  }

  /** A directory whose `.rs` files all parse but declare no struct scrapes successfully
      and prints no struct message. */
  lemma {:induction false} NoStructsIsNotAnError(fs: FileSystem, files: seq<string>)
    requires AllParse(fs, files)
    requires forall i :: 0 <= i < |files| ==> FileStructs(fs, files[i]).value == []
    ensures AllMessages(fs, files) == []
    decreases |files|
  {
    if files != [] {
      NoStructsIsNotAnError(fs, files[..|files| - 1]);
    }
  }
}
