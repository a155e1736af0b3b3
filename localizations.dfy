/** The localization store: one table of strings per language code, read from `<code>.json`
    files in one directory, looked up with the key itself as the fallback. */
module Localization {
  import opened Outcomes

  /** A top-level value of a localization file: a plain string, or a section of labels. */
  datatype Entry = Text(s: string) | Section(labels: map<string, string>)

  /** One parsed localization file. */
  type Table = map<string, Entry>

  /** `data[language_code][key]`, or the key itself when the language or the key is missing;
      never an error. */
  function Lookup(data: map<string, Table>, key: string, lang: string): (r: Entry)
    ensures lang in data && key in data[lang] ==> r == data[lang][key]
    ensures !(lang in data && key in data[lang]) ==> r == Text(key)
  {
    if lang in data && key in data[lang] then data[lang][key] else Text(key)
  }

  /** `entry[field]` as the scenes write it: a section yields its label or raises `KeyError`;
      a plain string, such as the fallback of `Lookup`, cannot be indexed by a string and
      raises `TypeError`. */
  function Index(entry: Entry, field: string): (r: Result<string>)
    ensures r.Ok? <==> entry.Section? && field in entry.labels
    ensures r.Ok? ==> r.value == entry.labels[field]
    ensures entry.Section? && field !in entry.labels ==> r == Err(KeyError)
    ensures entry.Text? ==> r == Err(TypeError)
  {
    match entry
    case Section(labels) => if field in labels then Ok(labels[field]) else Err(KeyError)
    case Text(_) => Err(TypeError)
  }

  /** A section missing from the language's table makes every label lookup in it raise
      `TypeError`: the fallback is a string, not a section. */
  lemma MissingSectionRaises(data: map<string, Table>, section: string, lang: string, field: string)
    requires !(lang in data && section in data[lang])
    ensures Index(Lookup(data, section, lang), field) == Err(TypeError)
  {
  }

  /** The table of `lang` has a section `section` holding the label `field`. */
  predicate HasLabel(data: map<string, Table>, lang: string, section: string, field: string) {
    lang in data && section in data[lang] && data[lang][section].Section? && field in data[lang][section].labels
  }

  /** The label `field` of section `section` in the table of `lang`. */
  function Label(data: map<string, Table>, lang: string, section: string, field: string): string
    requires HasLabel(data, lang, section, field)
  {
    data[lang][section].labels[field]
  }

  /** A scene's `get_key(section, lang)[field]` succeeds exactly when the label is there, and then
      yields it. */
  lemma LabelLookup(data: map<string, Table>, lang: string, section: string, field: string)
    ensures Index(Lookup(data, section, lang), field).Ok? <==> HasLabel(data, lang, section, field)
    ensures HasLabel(data, lang, section, field) ==> Index(Lookup(data, section, lang), field) == Ok(Label(data, lang, section, field))
  {
  }

  /** `s.endswith(suffix)`. */
  predicate EndsWith(s: string, suffix: string) {
    |suffix| <= |s| && s[|s| - |suffix|..] == suffix
  }

  /** `file.split(".")[0]`: the text before the first dot, or all of it when there is none. */
  function LanguageCode(file: string): (code: string)
    ensures code <= file
    ensures '.' !in code
    ensures |code| < |file| ==> file[|code|] == '.'
    decreases |file|
  {
    if file == [] || file[0] == '.' then [] else [file[0]] + LanguageCode(file[1..])
  }

  /** The file `load_localization` reads for a language code. */
  function FileName(code: string): (f: string)
    ensures |f| == |code| + 5 && f[..|code|] == code && f[|code|..] == ".json"
  {
    code + ".json"
  }

  /** A code without dots survives the round trip through its file name. */
  lemma {:induction false} LanguageCodeOfFileName(code: string)
    requires '.' !in code
    ensures EndsWith(FileName(code), ".json")
    ensures LanguageCode(FileName(code)) == code
  {
    var file := FileName(code);
    var r := LanguageCode(file);
    assert file[|code|] == '.';
    assert r == file[..|r|] && code == file[..|code|];
    assert file[|file| - 5..] == ".json";
  }

  /** A listed name with a second extension names another file: `en.backup.json` makes the
      store read `en.json`. */
  lemma SecondExtension()
    ensures EndsWith("en.backup.json", ".json")
    ensures FileName(LanguageCode("en.backup.json")) == "en.json"
  {
    assert LanguageCode("en.backup.json") == "en";
  }

  /** `load_localization` applied to `data`: stores the parsed file under the code when the
      file exists, otherwise changes nothing. */
  function LoadOne(data: map<string, Table>, code: string, files: map<string, Table>): (r: map<string, Table>)
    ensures FileName(code) in files ==> r.Keys == data.Keys + {code} && r[code] == files[FileName(code)]
    ensures FileName(code) !in files ==> r == data
    ensures forall c :: c in data && c != code ==> c in r && r[c] == data[c]
  {
    if FileName(code) in files then data[code := files[FileName(code)]] else data
  }

  /** The data after `load_all_localizations` has gone through the directory listing `listing`. */
  function LoadedAll(data: map<string, Table>, listing: seq<string>, files: map<string, Table>): (r: map<string, Table>)
    ensures data.Keys <= r.Keys
    ensures forall c :: c in r && c !in data ==> FileName(c) in files && r[c] == files[FileName(c)]
    decreases |listing|
  {
    if listing == [] then data
    else
      var before := LoadedAll(data, listing[..|listing| - 1], files);
      var file := listing[|listing| - 1];
      if EndsWith(file, ".json") then LoadOne(before, LanguageCode(file), files) else before
  }

  /** Whether the listing holds a `.json` name whose language code is `code` and whose
      `<code>.json` file exists. */
  predicate Loads(listing: seq<string>, files: map<string, Table>, code: string) {
    exists i :: 0 <= i < |listing| && EndsWith(listing[i], ".json") && LanguageCode(listing[i]) == code
      && FileName(code) in files
  }

  /** After loading the whole listing, a language is present exactly when it was before or the
      listing loads it, and a loaded language holds the contents of its `<code>.json` file. */
  lemma {:induction false} LoadedAllSpec(data: map<string, Table>, listing: seq<string>, files: map<string, Table>, code: string)
    ensures code in LoadedAll(data, listing, files) <==> code in data || Loads(listing, files, code)
    ensures Loads(listing, files, code) ==> LoadedAll(data, listing, files)[code] == files[FileName(code)]
    ensures !Loads(listing, files, code) && code in data ==> LoadedAll(data, listing, files)[code] == data[code]
    decreases |listing|
  {
    if listing != [] {
      var init := listing[..|listing| - 1];
      var file := listing[|listing| - 1];
      LoadedAllSpec(data, init, files, code);
      if Loads(init, files, code) {
        var i :| 0 <= i < |init| && EndsWith(init[i], ".json") && LanguageCode(init[i]) == code && FileName(code) in files;
        assert listing[i] == init[i];
      }
      if Loads(listing, files, code) && !Loads(init, files, code) {
        var i :| 0 <= i < |listing| && EndsWith(listing[i], ".json") && LanguageCode(listing[i]) == code
          && FileName(code) in files;
      }
      if EndsWith(file, ".json") && LanguageCode(file) == code && FileName(code) in files {
        assert Loads(listing, files, code) by {
          assert listing[|listing| - 1] == file;
        }
      }
    }
  }

  /** `Localizations`: the directory it reads and the tables loaded so far. The directory's
      files are passed in as `files`, from file name to parsed contents, and its listing as
      `listing`. */
  class Localizations {
    const dir: string
    var data: map<string, Table>

    constructor(dir: string)
      ensures this.dir == dir && data == map[]
    {
      this.dir := dir;
      data := map[];
    }

    /** `Localizations(dir)`: raises `FileNotFoundError` when `dir` is not a directory. */
    static method Open(dir: string, isDirectory: bool) returns (r: Result<Localizations>)
      ensures r.Ok? <==> isDirectory
      ensures r.Ok? ==> fresh(r.value) && r.value.dir == dir && r.value.data == map[]
      ensures r.Err? ==> r.error == FileNotFoundError
    {
      if !isDirectory {
        return Err(FileNotFoundError);
      }
      var loc := new Localizations(dir);
      r := Ok(loc);
    }

    /** `load_localization`: returns the loaded table, or an empty one when the file is missing. */
    method LoadLocalization(code: string, files: map<string, Table>) returns (r: Table)
      modifies this`data
      ensures FileName(code) !in files ==> r == map[] && data == old(data)
      ensures FileName(code) in files ==> r == files[FileName(code)] && data == old(data)[code := r]
      ensures data == LoadOne(old(data), code, files)
    {
      if FileName(code) !in files {
        return map[];
      }
      data := data[code := files[FileName(code)]];
      r := data[code];
    }

    /** `load_all_localizations`: loads the language of every listed `.json` name. */
    method LoadAllLocalizations(listing: seq<string>, files: map<string, Table>)
      modifies this`data
      ensures data == LoadedAll(old(data), listing, files)
    {
      for i := 0 to |listing|
        invariant data == LoadedAll(old(data), listing[..i], files)
      {
        assert listing[..i + 1][..i] == listing[..i];
        if EndsWith(listing[i], ".json") {
          var _ := LoadLocalization(LanguageCode(listing[i]), files);
        }
      }
      assert listing[..|listing|] == listing;
    }

    /** `get_key`. */
    function GetKey(key: string, lang: string): (r: Entry)
      reads this
      ensures r == Lookup(data, key, lang)
    {
      Lookup(data, key, lang)
    }
  }
}
