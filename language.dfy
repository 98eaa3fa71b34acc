/**
 * The translation lookup and language choice of js/language.js. A
 * translation file is a tree of nested objects with strings at the leaves;
 * a key such as "nav.home" is split on '.' and followed from the root. The
 * current language comes from the stored preference or the browser's
 * language tag, and a language whose file cannot be loaded falls back to
 * English once.
 */
module Language {
  import opened Wrappers
  import opened Strings

  /** A parsed translation file: strings at the leaves, objects keyed by name above them. */
  datatype Node = Text(text: string) | Tree(children: map<string, Node>)

  /** JavaScript truthiness of a lookup result: a non-empty string or any object. */
  predicate Truthy(n: Node) {
    match n
    case Text(s) => s != ""
    case Tree(_) => true
  }

  // ---------------------------------------------------------------------------
  // Key paths

  /** `s.split(sep)` for a one-character separator. */
  function Split(s: string, sep: char): (parts: seq<string>)
    ensures |parts| >= 1
    ensures forall i :: 0 <= i < |parts| ==> sep !in parts[i]
  {
    if s == [] then [""]
    else
      var rest := Split(s[1..], sep);
      if s[0] == sep then [""] + rest
      else [[s[0]] + rest[0]] + rest[1..]
  }

  /** `parts.join(sep)`. */
  function Join(parts: seq<string>, sep: char): string
    requires |parts| >= 1
  {
    if |parts| == 1 then parts[0] else parts[0] + [sep] + Join(parts[1..], sep)
  }

  /** Splitting and joining again gives back the key. */
  lemma {:induction false} JoinSplit(s: string, sep: char)
    ensures Join(Split(s, sep), sep) == s
  {
    if s != [] {
      var rest := Split(s[1..], sep);
      JoinSplit(s[1..], sep);
      if s[0] == sep {
        assert Split(s, sep)[1..] == rest;
      } else {
        var parts := Split(s, sep);
        if |rest| == 1 {
          assert parts == [[s[0]] + rest[0]];
        } else {
          assert parts[1..] == rest[1..];
          assert Join(rest, sep) == rest[0] + [sep] + Join(rest[1..], sep);
        }
      }
    }
  }

  /** A key made of pieces without '.' splits back into exactly those pieces. */
  lemma {:induction false} SplitJoin(parts: seq<string>, sep: char)
    requires |parts| >= 1
    requires forall i :: 0 <= i < |parts| ==> sep !in parts[i]
    ensures Split(Join(parts, sep), sep) == parts
    decreases |parts|, |parts[0]|
  {
    if |parts[0]| == 0 {
      if |parts| > 1 {
        SplitJoin(parts[1..], sep);
        assert Join(parts, sep) == [sep] + Join(parts[1..], sep);
        assert ([sep] + Join(parts[1..], sep))[1..] == Join(parts[1..], sep);
        assert [""] + parts[1..] == parts;
      }
    } else {
      var head := parts[0];
      var shorter := [head[1..]] + parts[1..];
      assert forall i :: 1 <= i < |shorter| ==> shorter[i] == parts[i];
      assert sep !in head[1..] by { assert forall c :: c in head[1..] ==> c in head; }
      SplitJoin(shorter, sep);
      assert Join(parts, sep) == [head[0]] + Join(shorter, sep) by {
        if |parts| > 1 {
          assert shorter[1..] == parts[1..];
        }
      }
      assert (Join(parts, sep))[1..] == Join(shorter, sep);
      assert head[0] != sep by { assert head[0] in head; }
      assert [[head[0]] + shorter[0]] + shorter[1..] == parts by {
        assert [head[0]] + head[1..] == head;
      }
    }
  }

  // ---------------------------------------------------------------------------
  // getNestedTranslation and t

  /** One step of the `reduce`: `obj?.[key]`; a string has no properties here. */
  function Step(o: Option<Node>, key: string): Option<Node> {
    match o
    case None => None
    case Some(Text(_)) => None
    case Some(Tree(children)) => if key in children then Some(children[key]) else None
  }

  /** `keys.reduce((obj, key) => obj?.[key], start)`. */
  function Follow(o: Option<Node>, keys: seq<string>): Option<Node>
    decreases |keys|
  {
    if keys == [] then o else Follow(Step(o, keys[0]), keys[1..])
  }

  /** `getNestedTranslation`. */
  function Nested(translations: Node, path: string): Option<Node> {
    Follow(Some(translations), Split(path, '.'))
  }

  /** Once a step yields undefined, every later step does too. */
  lemma {:induction false} FollowNone(keys: seq<string>)
    ensures Follow(None, keys) == None
    decreases |keys|
  {
    if keys != [] {
      FollowNone(keys[1..]);
    }
  }

  /** Following `a + b` is following `a`, then `b` from where `a` ended. */
  lemma {:induction false} FollowAppend(o: Option<Node>, a: seq<string>, b: seq<string>)
    ensures Follow(o, a + b) == Follow(Follow(o, a), b)
    decreases |a|
  {
    if a == [] {
      assert a + b == b;
    } else {
      FollowAppend(Step(o, a[0]), a[1..], b);
      assert (a + b)[0] == a[0] && (a + b)[1..] == a[1..] + b;
    }
  }

  /** A key missing at position `i` makes the whole lookup undefined. */
  lemma MissingKeyUndefined(root: Node, keys: seq<string>, i: int)
    requires 0 <= i < |keys|
    requires Follow(Some(root), keys[..i]) == None
      || (Follow(Some(root), keys[..i]).Some? && Step(Follow(Some(root), keys[..i]), keys[i]) == None)
    ensures Follow(Some(root), keys) == None
  {
    assert keys == keys[..i] + keys[i..];
    FollowAppend(Some(root), keys[..i], keys[i..]);
    FollowNone(keys[i..]);
    FollowNone(keys[i + 1..]);
  }

  /** Keys that are all present lead down the tree one level per key. */
  lemma {:induction false} FollowPresent(children: map<string, Node>, key: string, rest: seq<string>)
    requires key in children
    ensures Follow(Some(Tree(children)), [key] + rest) == Follow(Some(children[key]), rest)
  {
    assert ([key] + rest)[1..] == rest;
  }

  /** `t(key)`: the lookup result when it is truthy, otherwise the key itself. */
  function Translate(translations: Node, key: string): (r: Node)
    ensures Nested(translations, key) == Some(r) || r == Text(key)
    ensures Nested(translations, key).Some? && Truthy(Nested(translations, key).value)
      ==> Some(r) == Nested(translations, key)
    ensures Nested(translations, key) == None ==> r == Text(key)
    ensures Nested(translations, key) == Some(Text("")) ==> r == Text(key)
  {
    var found := Nested(translations, key);
    if found.Some? && Truthy(found.value) then found.value else Text(key)
  }

  /** A two-level key "section.entry" finds the entry of the section. */
  lemma TranslateTwoLevel(root: map<string, Node>, section: string, entry: string)
    requires '.' !in section && '.' !in entry
    requires section in root && root[section].Tree?
    ensures entry in root[section].children ==>
      Nested(Tree(root), section + "." + entry) == Some(root[section].children[entry])
    ensures entry !in root[section].children ==>
      Translate(Tree(root), section + "." + entry) == Text(section + "." + entry)
  {
    var key := section + "." + entry;
    assert Join([section, entry], '.') == key;
    SplitJoin([section, entry], '.');
    FollowPresent(root, section, [entry]);
    var children := root[section].children;
    if entry in children {
      FollowPresent(children, entry, []);
    }
  }

  // ---------------------------------------------------------------------------
  // Choosing the language

  /** `detectBrowserLanguage`: Norwegian for tags starting "no", "nb" or "nn", otherwise English. */
  function DetectBrowserLanguage(tag: string): (lang: string)
    ensures lang == "no" || lang == "en"
    ensures lang == "no" <==>
      StartsWith(ToLower(tag), "no") || StartsWith(ToLower(tag), "nb") || StartsWith(ToLower(tag), "nn")
  {
    var lower := ToLower(tag);
    if StartsWith(lower, "no") || StartsWith(lower, "nb") || StartsWith(lower, "nn") then "no" else "en"
  }

  lemma DetectExamples()
    ensures DetectBrowserLanguage("nb-NO") == "no"
    ensures DetectBrowserLanguage("NN") == "no"
    ensures DetectBrowserLanguage("en-US") == "en"
    ensures DetectBrowserLanguage("sv") == "en"
  {
    assert ToLower("nb-NO")[..2] == "nb";
    assert ToLower("NN")[..2] == "nn";
    assert ToLower("en-US")[0] == 'e';
    assert ToLower("sv")[0] == 's';
  }

  const PreferenceKey: string := "preferredLanguage"

  /** The constructor's choice: a non-empty stored preference, else the browser's language. */
  function InitialLanguage(store: map<string, string>, tag: string): (lang: string)
    ensures PreferenceKey in store && store[PreferenceKey] != "" ==> lang == store[PreferenceKey]
    ensures PreferenceKey !in store || store[PreferenceKey] == "" ==> lang == DetectBrowserLanguage(tag)
  {
    if PreferenceKey in store && store[PreferenceKey] != "" then store[PreferenceKey]
    else DetectBrowserLanguage(tag)
  }

  /** What `loadTranslations` leaves behind: the language, the loaded tree, the files fetched. */
  datatype LoadState = LoadState(language: string, translations: Node, fetched: seq<string>)

  /**
   * `loadTranslations` with the file of each language that loads given by
   * `available`: on failure a language other than English retries once, as
   * English, and English failing ends it with the old translations kept.
   */
  function LoadFrom(lang: string, current: Node, available: map<string, Node>): (s: LoadState)
    ensures s.fetched == [lang] || (lang != "en" && s.fetched == [lang, "en"])
    ensures s.language == lang || s.language == "en"
    ensures lang in available ==> s == LoadState(lang, available[lang], [lang])
    ensures s.translations == current || (s.language in available && s.translations == available[s.language])
    ensures s.language == s.fetched[|s.fetched| - 1]
    decreases if lang == "en" then 0 else 1
  {
    if lang in available then LoadState(lang, available[lang], [lang])
    else if lang != "en" then
      var retry := LoadFrom("en", current, available);
      LoadState(retry.language, retry.translations, [lang] + retry.fetched)
    else LoadState(lang, current, [lang])
  }

  /** A failed non-English load ends in English, loaded if English is available. */
  lemma FallbackToEnglish(lang: string, current: Node, available: map<string, Node>)
    requires lang !in available && lang != "en"
    ensures LoadFrom(lang, current, available).language == "en"
    ensures "en" in available ==> LoadFrom(lang, current, available).translations == available["en"]
    ensures "en" !in available ==> LoadFrom(lang, current, available).translations == current
  {
  }

  class LanguageManager {
    var currentLanguage: string
    var translations: Node
    var store: map<string, string>

    constructor (saved: map<string, string>, browserTag: string)
      ensures currentLanguage == InitialLanguage(saved, browserTag)
      ensures translations == Tree(map[]) && store == saved
    {
      currentLanguage := InitialLanguage(saved, browserTag);
      translations := Tree(map[]);
      store := saved;
    }

    /** Returns the languages whose files were requested, in order. */
    method LoadTranslations(available: map<string, Node>) returns (fetched: seq<string>)
      modifies this`currentLanguage, this`translations
      ensures LoadState(currentLanguage, translations, fetched)
           == LoadFrom(old(currentLanguage), old(translations), available)
      decreases if currentLanguage == "en" then 0 else 1
    {
      if currentLanguage in available {
        translations := available[currentLanguage];
        fetched := [currentLanguage];
      } else if currentLanguage != "en" {
        var tried := currentLanguage;
        currentLanguage := "en";
        var retried := LoadTranslations(available);
        fetched := [tried] + retried;
      } else {
        fetched := [currentLanguage];
      }
    }

    /** `switchLanguage`: nothing for the current language, else store the choice and load it. */
    method SwitchLanguage(newLang: string, available: map<string, Node>)
      modifies this
      ensures old(currentLanguage) == newLang ==>
        currentLanguage == old(currentLanguage) && translations == old(translations) && store == old(store)
      ensures old(currentLanguage) != newLang ==>
        && store == old(store)[PreferenceKey := newLang]
        && currentLanguage == LoadFrom(newLang, old(translations), available).language
        && translations == LoadFrom(newLang, old(translations), available).translations
    {
      if newLang == currentLanguage {
        return;
      }
      currentLanguage := newLang;
      store := store[PreferenceKey := newLang];
      var _ := LoadTranslations(available);
    }
  }
}
