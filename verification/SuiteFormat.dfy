/** `validate_generated_suite` (llm_test_generation/generate_tests.py). */
module SuiteFormat {
  import opened JsonValues
  import opened Optional

  const MAX_FILES := 100
  const MAX_PATH := 240
  const MAX_CONTENT := 200_000
  const MAX_GENERATED_CHARACTERS := 5_000_000

  datatype FormatError =
    | SuiteNotObject
    | FieldNotText(field: string)
    | NotesNotTexts
    | FilesNotList
    | EntryNotObject
    | EntryFieldsNotTexts
    | PathTooLong
    | ContentTooLong
    | SuiteTooLarge

  const TEXT_FIELDS := ["summary", "detected_build_system", "recommended_test_command"]

  datatype Item = Item(path: string, content: string)

  predicate AllTexts(items: seq<Json>) { forall k :: 0 <= k < |items| ==> items[k].Str? }

  // ----- what a suite has to be -----

  predicate WellFormedEntry(e: Json) {
    e.Object? && HasText(e.entries, "path") && HasText(e.entries, "purpose") && HasText(e.entries, "content")
  }

  function ItemOf(e: Json): Item
    requires WellFormedEntry(e)
  {
    Item(Get(e.entries, "path").value.text, Get(e.entries, "content").value.text)
  }

  predicate GoodEntry(e: Json) {
    WellFormedEntry(e) && |ItemOf(e).path| <= MAX_PATH && |ItemOf(e).content| <= MAX_CONTENT
  }

  /** The file entries, once they are known to be well formed. */
  function Items(files: seq<Json>): seq<Item>
    requires forall k :: 0 <= k < |files| ==> WellFormedEntry(files[k])
  {
    seq(|files|, k requires 0 <= k < |files| => ItemOf(files[k]))
  }

  function TotalContent(items: seq<Item>): nat {
    if items == [] then 0 else TotalContent(items[..|items| - 1]) + |items[|items| - 1].content|
  }

  predicate GoodHeader(suite: Json) {
    && suite.Object?
    && (forall k :: 0 <= k < 3 ==> HasText(suite.entries, TEXT_FIELDS[k]))
    && var notes := Get(suite.entries, "integration_notes");
       notes.Some? && notes.value.List? && AllTexts(notes.value.items)
  }

  predicate GoodFiles(files: Json) {
    && files.List? && |files.items| <= MAX_FILES
    && (forall k :: 0 <= k < |files.items| ==> GoodEntry(files.items[k]))
    && TotalContent(Items(files.items)) <= MAX_GENERATED_CHARACTERS
  }

  /** The suites that are accepted. */
  predicate GoodSuite(suite: Json) {
    && GoodHeader(suite)
    && var files := Get(suite.entries, "files");
       files.Some? && GoodFiles(files.value)
  }

  function SuiteItems(suite: Json): seq<Item>
    requires GoodSuite(suite)
  {
    Items(Get(suite.entries, "files").value.items)
  }

  // ----- the first thing wrong -----

  function EntryError(e: Json): Option<FormatError> {
    if !e.Object? then Some(EntryNotObject)
    else if !WellFormedEntry(e) then Some(EntryFieldsNotTexts)
    else if |ItemOf(e).path| > MAX_PATH then Some(PathTooLong)
    else if |ItemOf(e).content| > MAX_CONTENT then Some(ContentTooLong)
    else None
  }

  function FirstError(files: seq<Json>): (r: Option<FormatError>)
    ensures r.None? ==> forall k :: 0 <= k < |files| ==> GoodEntry(files[k])
  {
    if files == [] then None
    else if EntryError(files[0]).Some? then EntryError(files[0])
    else FirstError(files[1..])
  }

  function FilesError(files: Json): Option<FormatError> {
    if !files.List? || |files.items| > MAX_FILES then Some(FilesNotList)
    else if FirstError(files.items).Some? then FirstError(files.items)
    else if TotalContent(Items(files.items)) > MAX_GENERATED_CHARACTERS then Some(SuiteTooLarge)
    else None
  }

  function MissingField(entries: seq<Entry>, k: nat): Option<FormatError>
    requires k <= |TEXT_FIELDS|
    decreases |TEXT_FIELDS| - k
  {
    if k == |TEXT_FIELDS| then None
    else if !HasText(entries, TEXT_FIELDS[k]) then Some(FieldNotText(TEXT_FIELDS[k]))
    else MissingField(entries, k + 1)
  }

  function NotesError(entries: seq<Entry>): Option<FormatError> {
    match Get(entries, "integration_notes")
    case Some(List(notes)) => if AllTexts(notes) then None else Some(NotesNotTexts)
    case _ => Some(NotesNotTexts)
  }

  function SuiteError(suite: Json): Option<FormatError> {
    if !suite.Object? then Some(SuiteNotObject)
    else if MissingField(suite.entries, 0).Some? then MissingField(suite.entries, 0)
    else if NotesError(suite.entries).Some? then NotesError(suite.entries)
    else
      match Get(suite.entries, "files")
      case None => Some(FilesNotList)
      case Some(files) => FilesError(files)
  }

  lemma {:induction false} FirstErrorExact(files: seq<Json>)
    ensures FirstError(files).None? <==> forall k :: 0 <= k < |files| ==> GoodEntry(files[k])
    decreases |files|
  {
    hide HasText, ItemOf;
    if files != [] {
      FirstErrorExact(files[1..]);
      assert GoodEntry(files[0]) <==> EntryError(files[0]).None?;
      if forall k :: 0 <= k < |files| ==> GoodEntry(files[k]) {
        assert forall k :: 0 <= k < |files[1..]| ==> files[1..][k] == files[k + 1];
      }
    }
  }

  /** A suite passes exactly when it is good. */
  lemma SuiteErrorExact(suite: Json)
    ensures SuiteError(suite).None? <==> GoodSuite(suite)
  {
    hide HasText, AllTexts, Get, GoodEntry, FirstError, TotalContent, EntryError;
    if suite.Object? {
      assert MissingField(suite.entries, 3).None?;
      assert MissingField(suite.entries, 2).None? <==> HasText(suite.entries, TEXT_FIELDS[2]);
      assert MissingField(suite.entries, 1).None? <==>
        HasText(suite.entries, TEXT_FIELDS[1]) && HasText(suite.entries, TEXT_FIELDS[2]);
      var files := Get(suite.entries, "files");
      if files.Some? && files.value.List? { FirstErrorExact(files.value.items); }
    }
  }

  // ----- the same, field by field -----

  predicate TextUnder(entry: Json, key: string, text: string) {
    entry.Object? && Get(entry.entries, key) == Some(Str(text))
  }

  ghost predicate EntryAllowed(entry: Json) {
    exists path, purpose, content ::
      && TextUnder(entry, "path", path) && TextUnder(entry, "purpose", purpose) && TextUnder(entry, "content", content)
      && |path| <= 240 && |content| <= 200_000
  }

  /** The characters of all the texts under "content". */
  function CharactersOf(files: seq<Json>): nat {
    if files == [] then 0
    else
      var content := if files[0].Object? then Get(files[0].entries, "content") else None;
      (if content.Some? && content.value.Str? then |content.value.text| else 0) + CharactersOf(files[1..])
  }

  lemma EntryAllowedExact(entry: Json)
    ensures GoodEntry(entry) <==> EntryAllowed(entry)
    ensures WellFormedEntry(entry) ==>
      TextUnder(entry, "path", ItemOf(entry).path) && TextUnder(entry, "content", ItemOf(entry).content)
  {
    hide Get;
    if GoodEntry(entry) {
      var purpose := Get(entry.entries, "purpose").value.text;
      assert TextUnder(entry, "path", ItemOf(entry).path) && TextUnder(entry, "purpose", purpose)
        && TextUnder(entry, "content", ItemOf(entry).content);
    }
  }

  lemma GoodIsWellFormed(entry: Json)
    ensures GoodEntry(entry) ==> WellFormedEntry(entry)
  {
  }

  lemma {:induction false} TotalFromFront(items: seq<Item>)
    requires items != []
    ensures TotalContent(items) == |items[0].content| + TotalContent(items[1..])
    decreases |items|
  {
    if |items| > 1 {
      TotalFromFront(items[..|items| - 1]);
      assert items[..|items| - 1][1..] == items[1..][..|items| - 2];
    } else {
      assert items[..0] == items[1..] == [];
    }
  }

  lemma {:induction false} TotalIsCharacters(files: seq<Json>)
    requires forall k :: 0 <= k < |files| ==> WellFormedEntry(files[k])
    ensures TotalContent(Items(files)) == CharactersOf(files)
    decreases |files|
  {
    hide Get;
    if files != [] {
      TotalFromFront(Items(files));
      assert Items(files)[1..] == Items(files[1..]);
      EntryAllowedExact(files[0]);
      TotalIsCharacters(files[1..]);
    }
  }

  lemma GoodFilesMeans(files: Json)
    ensures GoodFiles(files) <==>
      && files.List? && |files.items| <= 100 && (forall entry :: entry in files.items ==> EntryAllowed(entry))
      && CharactersOf(files.items) <= 5_000_000
  {
    hide WellFormedEntry, ItemOf, EntryAllowed, CharactersOf, TotalContent, GoodEntry;
    if files.List? {
      forall k | 0 <= k < |files.items|
        ensures GoodEntry(files.items[k]) <==> EntryAllowed(files.items[k])
        ensures GoodEntry(files.items[k]) ==> WellFormedEntry(files.items[k])
      {
        EntryAllowedExact(files.items[k]);
        GoodIsWellFormed(files.items[k]);
      }
      if forall k :: 0 <= k < |files.items| ==> GoodEntry(files.items[k]) {
        TotalIsCharacters(files.items);
      }
    }
  }

  lemma HasTextMeans(suite: Json, key: string)
    requires suite.Object?
    ensures HasText(suite.entries, key) <==> exists text :: TextUnder(suite, key, text)
  {
    hide Get;
    if HasText(suite.entries, key) { assert TextUnder(suite, key, Get(suite.entries, key).value.text); }
  }

  lemma GoodHeaderMeans(suite: Json)
    ensures GoodHeader(suite) <==>
      && suite.Object?
      && (exists text :: TextUnder(suite, "summary", text))
      && (exists text :: TextUnder(suite, "detected_build_system", text))
      && (exists text :: TextUnder(suite, "recommended_test_command", text))
      && (exists notes :: Get(suite.entries, "integration_notes") == Some(List(notes)) && AllTexts(notes))
  {
    hide Get, HasText, TextUnder, AllTexts;
    if suite.Object? {
      HasTextMeans(suite, "summary");
      HasTextMeans(suite, "detected_build_system");
      HasTextMeans(suite, "recommended_test_command");
      assert TEXT_FIELDS[0] == "summary" && TEXT_FIELDS[1] == "detected_build_system";
      assert TEXT_FIELDS[2] == "recommended_test_command";
    }
  }

  /** What a suite needs to be accepted. */
  lemma GoodSuiteMeans(suite: Json)
    ensures GoodSuite(suite) <==>
      && suite.Object?
      && (exists text :: TextUnder(suite, "summary", text))
      && (exists text :: TextUnder(suite, "detected_build_system", text))
      && (exists text :: TextUnder(suite, "recommended_test_command", text))
      && (exists notes: seq<Json> :: Get(suite.entries, "integration_notes") == Some(List(notes))
            && forall k :: 0 <= k < |notes| ==> notes[k].Str?)
      && (exists files :: Get(suite.entries, "files") == Some(List(files)) && |files| <= 100
            && (forall entry :: entry in files ==> EntryAllowed(entry)) && CharactersOf(files) <= 5_000_000)
  {
    hide Get, GoodFiles, GoodHeader, EntryAllowed, CharactersOf, TextUnder;
    GoodHeaderMeans(suite);
    if suite.Object? && Get(suite.entries, "files").Some? { GoodFilesMeans(Get(suite.entries, "files").value); }
  }

  lemma EntryFault(entry: Json)
    requires !EntryAllowed(entry)
    ensures !entry.Object? ==> EntryError(entry) == Some(EntryNotObject)
    ensures entry.Object? && !(exists text :: TextUnder(entry, "path", text)) ==>
      EntryError(entry) == Some(EntryFieldsNotTexts)
    ensures entry.Object? && !(exists text :: TextUnder(entry, "purpose", text)) ==>
      EntryError(entry) == Some(EntryFieldsNotTexts)
    ensures entry.Object? && !(exists text :: TextUnder(entry, "content", text)) ==>
      EntryError(entry) == Some(EntryFieldsNotTexts)
    ensures entry.Object? && (exists text :: TextUnder(entry, "purpose", text)) ==>
      forall path, content :: TextUnder(entry, "path", path) && TextUnder(entry, "content", content) ==>
        EntryError(entry) == Some(if |path| > 240 then PathTooLong else ContentTooLong)
  {
    hide Get, EntryAllowed;
    EntryAllowedExact(entry);
    if entry.Object? {
      HasTextMeans(entry, "path");
      HasTextMeans(entry, "purpose");
      HasTextMeans(entry, "content");
    }
  }

  /** The first entry that is not allowed decides what is reported. */
  lemma {:induction false} FirstFault(files: seq<Json>, k: nat)
    requires k < |files| && !EntryAllowed(files[k]) && forall j :: 0 <= j < k ==> EntryAllowed(files[j])
    ensures FirstError(files) == EntryError(files[k]) && EntryError(files[k]).Some?
    decreases k
  {
    hide EntryAllowed, WellFormedEntry, ItemOf;
    EntryAllowedExact(files[0]);
    if k > 0 {
      EntryAllowedExact(files[k]);
      FirstFault(files[1..], k - 1);
    }
  }

  /** Before the entries come the three texts in this order, then the notes. */
  lemma FirstHeaderFault(suite: Json)
    requires suite.Object?
    ensures var r := SuiteError(suite);
      if forall text :: !TextUnder(suite, "summary", text) then r == Some(FieldNotText("summary"))
      else if forall text :: !TextUnder(suite, "detected_build_system", text) then
        r == Some(FieldNotText("detected_build_system"))
      else if forall text :: !TextUnder(suite, "recommended_test_command", text) then
        r == Some(FieldNotText("recommended_test_command"))
      else !GoodHeader(suite) ==> r == Some(NotesNotTexts)
  {
    hide Get, HasText, TextUnder, AllTexts, FilesError;
    HasTextMeans(suite, "summary");
    HasTextMeans(suite, "detected_build_system");
    HasTextMeans(suite, "recommended_test_command");
    assert TEXT_FIELDS == ["summary", "detected_build_system", "recommended_test_command"];
    assert MissingField(suite.entries, 3).None?;
    assert MissingField(suite.entries, 2).None? <==> HasText(suite.entries, TEXT_FIELDS[2]);
  }

  // ----- the code -----

  lemma {:induction false} TotalSnoc(items: seq<Item>, item: Item)
    ensures TotalContent(items + [item]) == TotalContent(items) + |item.content|
  {
    assert (items + [item])[..|items|] == items;
  }

  /** The loop over the entries, with the running total. */
  method CheckFiles(files: Json) returns (error: Option<FormatError>)
    ensures error == FilesError(files)
  {
    hide GoodEntry, ItemOf, HasText, Get;
    if !files.List? || |files.items| > MAX_FILES {
      return Some(FilesNotList);
    }
    var totalCharacters := 0;
    var k := 0;
    while k < |files.items|
      invariant k <= |files.items|
      invariant FirstError(files.items) == FirstError(files.items[k..])
      invariant forall j :: 0 <= j < k ==> WellFormedEntry(files.items[j])
      invariant totalCharacters == TotalContent(Items(files.items[..k]))
    {
      var item := files.items[k];
      if !item.Object? {
        return Some(EntryNotObject);
      }
      if !(HasText(item.entries, "path") && HasText(item.entries, "purpose") && HasText(item.entries, "content")) {
        return Some(EntryFieldsNotTexts);
      }
      if |ItemOf(item).path| > MAX_PATH {
        return Some(PathTooLong);
      }
      if |ItemOf(item).content| > MAX_CONTENT {
        return Some(ContentTooLong);
      }
      assert Items(files.items[..k + 1]) == Items(files.items[..k]) + [ItemOf(item)];
      TotalSnoc(Items(files.items[..k]), ItemOf(item));
      totalCharacters := totalCharacters + |ItemOf(item).content|;
      k := k + 1;
    }
    assert files.items[..k] == files.items;
    return if totalCharacters > MAX_GENERATED_CHARACTERS then Some(SuiteTooLarge) else None;
  }

  /** `validate_generated_suite` reports the first thing wrong. */
  method ValidateGeneratedSuite(suite: Json) returns (error: Option<FormatError>)
    ensures error == SuiteError(suite)
  {
    hide FilesError, HasText;
    if !suite.Object? {
      return Some(SuiteNotObject);
    }
    var k := 0;
    while k < |TEXT_FIELDS|
      invariant k <= |TEXT_FIELDS|
      invariant MissingField(suite.entries, 0) == MissingField(suite.entries, k)
    {
      if !HasText(suite.entries, TEXT_FIELDS[k]) {
        return Some(FieldNotText(TEXT_FIELDS[k]));
      }
      k := k + 1;
    }
    var notes := Get(suite.entries, "integration_notes");
    if notes.None? || !notes.value.List? || !AllTexts(notes.value.items) {
      return Some(NotesNotTexts);
    }
    var files := Get(suite.entries, "files");
    if files.None? {
      return Some(FilesNotList);
    }
    error := CheckFiles(files.value);
  }
}
