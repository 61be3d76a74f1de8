/** The localization interceptor: load the prompt table for the request's locale, with one fallback. */
module Localization {
  import opened Failures
  import opened Prompts
  import opened Input

  /** A language file: JSON that parses to a prompt table, or a file json.load rejects. */
  datatype Resource = Parsed(table: PromptTable) | Unparseable

  /** The deployed language files, keyed by path; an absent path is a file open cannot find. */
  type Files = map<string, Resource>

  /** `str(locale)`. */
  function LocaleText(locale: Option<string>): (r: string)
    ensures locale.Some? ==> r == locale.value
    ensures locale.None? ==> r == "None"
  {
    match locale
    case None => "None"
    case Some(s) => s
  }

  /** `locale[:2]`: the first two characters, or the whole tag when it is shorter. */
  function LanguageOf(locale: string): (r: string)
    ensures |r| == if |locale| < 2 then |locale| else 2
    ensures r <= locale
  {
    if |locale| <= 2 then locale else locale[..2]
  }

  /** The first path tried: the full locale tag. */
  function ExactPath(locale: Option<string>): (r: string)
    ensures |r| == 15 + |LocaleText(locale)|
    ensures r[..10] == "languages/" && r[|r| - 5..] == ".json" && r[10..|r| - 5] == LocaleText(locale)
  {
    "languages/" + LocaleText(locale) + ".json"
  }

  /** The second path tried: the two-character language prefix. */
  function LanguagePath(locale: string): (r: string)
    ensures |r| == 15 + |LanguageOf(locale)|
    ensures r[..10] == "languages/" && r[|r| - 5..] == ".json" && r[10..|r| - 5] == LanguageOf(locale)
  {
    "languages/" + LanguageOf(locale) + ".json"
  }

  predicate Parses(files: Files, path: string) {
    path in files && files[path].Parsed?
  }

  /** `with open(path) as f: json.load(f)`. */
  function ReadTable(files: Files, path: string): (r: Result<PromptTable>)
    ensures r.Ok? <==> Parses(files, path)
    ensures r.Ok? ==> files[path] == Parsed(r.value)
    ensures r.Err? ==> r.error == FileError(path)
  {
    if Parses(files, path) then Ok(files[path].table) else Err(FileError(path))
  }

  /** The prompt table the interceptor stores, or the failure that escapes it. */
  function LoadPrompts(files: Files, locale: Option<string>): (r: Result<PromptTable>)
    ensures r.Ok? <==> Parses(files, ExactPath(locale)) || (locale.Some? && Parses(files, LanguagePath(locale.value)))
    ensures r.Ok? && Parses(files, ExactPath(locale)) ==> files[ExactPath(locale)] == Parsed(r.value)
    ensures r.Ok? && !Parses(files, ExactPath(locale)) ==> files[LanguagePath(locale.value)] == Parsed(r.value)
    ensures r.Err? ==> r.error == if locale.None? then TypeError else FileError(LanguagePath(locale.value))
  {
    match ReadTable(files, ExactPath(locale))
    case Ok(t) => Ok(t)
    case Err(_) =>
      if locale.None? then Err(TypeError) else ReadTable(files, LanguagePath(locale.value))
  }

  /** The paths the interceptor opens, in order. */
  function Attempts(files: Files, locale: Option<string>): (paths: seq<string>)
    ensures 1 <= |paths| <= 2 && paths[0] == ExactPath(locale)
    ensures |paths| == 2 <==> !Parses(files, ExactPath(locale)) && locale.Some?
    ensures |paths| == 2 ==> paths[1] == LanguagePath(locale.value)
  {
    if Parses(files, ExactPath(locale)) || locale.None? then [ExactPath(locale)]
    else [ExactPath(locale), LanguagePath(locale.value)]
  }

  /** Two stores that agree at `path`. */
  predicate SameAt(files1: Files, files2: Files, path: string) {
    (path in files1 <==> path in files2) && (path in files1 ==> files1[path] == files2[path])
  }

  /** No third resource is consulted: the outcome depends only on the two candidate paths. */
  lemma NoFurtherFallback(files1: Files, files2: Files, locale: Option<string>)
    requires SameAt(files1, files2, ExactPath(locale))
    requires locale.Some? ==> SameAt(files1, files2, LanguagePath(locale.value))
    ensures LoadPrompts(files1, locale) == LoadPrompts(files2, locale)
    ensures Attempts(files1, locale) == Attempts(files2, locale)
  {
  }

  /** The table loaded always comes from the last path opened. */
  lemma LoadedFromLastAttempt(files: Files, locale: Option<string>)
    ensures var paths := Attempts(files, locale);
      match LoadPrompts(files, locale)
      case Ok(t) => files[paths[|paths| - 1]] == Parsed(t)
      case Err(e) => !Parses(files, paths[|paths| - 1])
  {
  }

  /** A missing regional file falls back to the language file ("fr-CA" to "fr"). */
  lemma RegionalFallsBackToLanguage(files: Files, table: PromptTable)
    requires "languages/fr-CA.json" !in files
    requires "languages/fr.json" in files && files["languages/fr.json"] == Parsed(table)
    ensures LoadPrompts(files, Some("fr-CA")) == Ok(table)
    ensures Attempts(files, Some("fr-CA")) == ["languages/fr-CA.json", "languages/fr.json"]
  {
    assert ExactPath(Some("fr-CA")) == "languages/fr-CA.json";
    assert LanguageOf("fr-CA") == "fr";
    assert LanguagePath("fr-CA") == "languages/fr.json";
  }

  /** A tag of at most two characters retries the very file that just failed. */
  lemma ShortTagRetriesSameFile(files: Files, locale: string)
    requires |locale| <= 2
    ensures LanguagePath(locale) == ExactPath(Some(locale))
    ensures LoadPrompts(files, Some(locale)).Ok? <==> Parses(files, ExactPath(Some(locale)))
  {
  }

  /** The language files, with a record of every path opened. */
  class ResourceStore {
    const files: Files
    var openedPaths: seq<string>

    constructor (files: Files)
      ensures this.files == files && openedPaths == []
    {
      this.files := files;
      openedPaths := [];
    }

    method Open(path: string) returns (r: Result<PromptTable>)
      modifies this
      ensures openedPaths == old(openedPaths) + [path]
      ensures r == ReadTable(files, path)
    {
      openedPaths := openedPaths + [path];
      r := ReadTable(files, path);
    }
  }

  /** LocalizationInterceptor.process: try the full tag, then its language prefix, and store
      the table under `PromptsKey`; a failure of the second attempt escapes. */
  method Process(input: HandlerInput, store: ResourceStore) returns (outcome: Outcome)
    modifies input, store
    ensures store.openedPaths == old(store.openedPaths) + Attempts(store.files, input.request.locale)
    ensures match LoadPrompts(store.files, input.request.locale)
      case Ok(t) =>
        outcome == Returned && input.requestAttributes == old(input.requestAttributes)[PromptsKey := t]
      case Err(e) =>
        outcome == Raised(e) && input.requestAttributes == old(input.requestAttributes)
  {
    var locale := input.request.locale;
    var prompts: PromptTable;
    var first := store.Open(ExactPath(locale));
    if first.Ok? {
      prompts := first.value;
    } else {
      if locale.None? {
        return Raised(TypeError);
      }
      var second := store.Open(LanguagePath(locale.value));
      if second.Err? {
        return Raised(second.error);
      }
      prompts := second.value;
    }
    input.requestAttributes := input.requestAttributes[PromptsKey := prompts];
    outcome := Returned;
  }
}
