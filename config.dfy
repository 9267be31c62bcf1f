/** The configuration of the scraper (src/config.py): four sections of
    settings with dataclass defaults, a validator that lists what is wrong
    in a fixed order, and a loader that copies known keys from a parsed JSON
    file into the sections.

    A dataclass instance is modelled as a map from attribute name to value.
    Python does not check the types of attributes, so `setattr` may store
    any JSON value; the map's key set is the dataclass's field set and never
    changes, because the loader only overwrites attributes that exist. */
module ConfigModel {
  import opened Wrappers
  import opened Json
  import opened Subsequences

  type Section = map<string, Value>

  const RateLimitName := "rate_limit"
  const OutputName := "output"
  const ScrapingName := "scraping"
  const LoggingName := "logging"

  /** The sections in the order the loader visits them. */
  const SectionNames: seq<string> := [RateLimitName, OutputName, ScrapingName, LoggingName]

  // RateLimitConfig
  const DefaultRateLimit: Section := map[
    "requests_per_minute" := Int(30),
    "delay_between_requests" := Float(2.0),
    "max_concurrent_requests" := Int(5)]

  // OutputConfig
  const DefaultOutput: Section := map[
    "format" := Str("json"),
    "directory" := Str("./output"),
    "filename_template" := Str("poe_scrape_{timestamp}"),
    "include_metadata" := Bool(true)]

  // ScrapingConfig; `filter_bots` defaults to None
  const DefaultScraping: Section := map[
    "max_conversations" := Int(100),
    "include_timestamps" := Bool(true),
    "filter_bots" := Null,
    "skip_empty_conversations" := Bool(true),
    "max_retries" := Int(3),
    "timeout_seconds" := Int(30)]

  // LoggingConfig; `file` defaults to None
  const DefaultLogging: Section := map[
    "level" := Str("INFO"),
    "format" := Str("%(asctime)s - %(name)s - %(levelname)s - %(message)s"),
    "file" := Null,
    "console" := Bool(true)]

  datatype Settings = Settings(rateLimit: Section, output: Section, scraping: Section, logging: Section)

  const Defaults := Settings(DefaultRateLimit, DefaultOutput, DefaultScraping, DefaultLogging)

  /** Each section has exactly its dataclass's fields. */
  predicate WellFormed(s: Settings) {
    && s.rateLimit.Keys == DefaultRateLimit.Keys
    && s.output.Keys == DefaultOutput.Keys
    && s.scraping.Keys == DefaultScraping.Keys
    && s.logging.Keys == DefaultLogging.Keys
  }

  // ---------------------------------------------------------------------
  // Config.validate

  const RequestsPerMinuteError := "Rate limit requests_per_minute must be positive"
  const DelayError := "Rate limit delay_between_requests cannot be negative"
  const DirectoryError := "Output directory cannot be empty"
  const FormatError := "Output format must be one of: json, csv, xlsx"
  const MaxConversationsError := "Max conversations must be positive"
  const MaxRetriesError := "Max retries cannot be negative"

  /** The six messages in the order the checks run. */
  const CheckMessages: seq<string> :=
    [RequestsPerMinuteError, DelayError, DirectoryError, FormatError, MaxConversationsError, MaxRetriesError]

  /** Raised instead of a list when a compared setting is not a number. */
  datatype ValidationError = ComparisonTypeError

  function Number(v: Value): Result<real, ValidationError> {
    match AsNumber(v)
    case Some(x) => Success(x)
    case None => Failure(ComparisonTypeError)
  }

  const AcceptedFormats: seq<Value> := [Str("json"), Str("csv"), Str("xlsx")]

  function Validate(s: Settings): (r: Result<seq<string>, ValidationError>)
    requires WellFormed(s)
    ensures r.Success? ==> |r.value| <= 6 && forall m :: m in r.value ==> m in CheckMessages
  {
    var requestsPerMinute :- Number(s.rateLimit["requests_per_minute"]);
    var e1 := if requestsPerMinute <= 0.0 then [RequestsPerMinuteError] else [];
    var delay :- Number(s.rateLimit["delay_between_requests"]);
    var e2 := if delay < 0.0 then [DelayError] else [];
    var e3 := if !Truthy(s.output["directory"]) then [DirectoryError] else [];
    var e4 := if s.output["format"] !in AcceptedFormats then [FormatError] else [];
    var maxConversations :- Number(s.scraping["max_conversations"]);
    var e5 := if maxConversations <= 0.0 then [MaxConversationsError] else [];
    var maxRetries :- Number(s.scraping["max_retries"]);
    var e6 := if maxRetries < 0.0 then [MaxRetriesError] else [];
    Success(e1 + e2 + e3 + e4 + e5 + e6)
  }

  /** The four settings that validate compares with zero are numbers. */
  predicate Comparable(s: Settings)
    requires WellFormed(s)
  {
    && AsNumber(s.rateLimit["requests_per_minute"]).Some?
    && AsNumber(s.rateLimit["delay_between_requests"]).Some?
    && AsNumber(s.scraping["max_conversations"]).Some?
    && AsNumber(s.scraping["max_retries"]).Some?
  }

  /** Check k (numbered as in CheckMessages) is satisfied. */
  predicate Passes(s: Settings, k: nat)
    requires WellFormed(s) && Comparable(s) && k < 6
  {
    match k
    case 0 => AsNumber(s.rateLimit["requests_per_minute"]).value > 0.0
    case 1 => AsNumber(s.rateLimit["delay_between_requests"]).value >= 0.0
    case 2 => Truthy(s.output["directory"])
    case 3 => s.output["format"] == Str("json") || s.output["format"] == Str("csv") || s.output["format"] == Str("xlsx")
    case 4 => AsNumber(s.scraping["max_conversations"]).value > 0.0
    case 5 => AsNumber(s.scraping["max_retries"]).value >= 0.0
  }

  function FailedChecks(s: Settings): (flags: seq<bool>)
    requires WellFormed(s) && Comparable(s)
    ensures |flags| == 6 && forall k :: 0 <= k < 6 ==> flags[k] == !Passes(s, k)
  {
    [!Passes(s, 0), !Passes(s, 1), !Passes(s, 2), !Passes(s, 3), !Passes(s, 4), !Passes(s, 5)]
  }

  /** validate raises exactly when one of the compared settings is not a number. */
  lemma ValidateRaisesIff(s: Settings)
    requires WellFormed(s)
    ensures Validate(s).Failure? <==> !Comparable(s)
  {
  }

  /** On comparable settings the error list is the messages of the failed
      checks, in check order: an order-preserving selection from CheckMessages. */
  lemma ValidateSelectsFailedChecks(s: Settings)
    requires WellFormed(s) && Comparable(s)
    ensures Validate(s) == Success(Select(CheckMessages, FailedChecks(s)))
  {
    var f := FailedChecks(s);
    SelectSix(CheckMessages, f);
  }

  /** Select over six elements, written out. */
  lemma SelectSix<T>(m: seq<T>, f: seq<bool>)
    requires |m| == |f| == 6
    ensures Select(m, f) ==
      (if f[0] then [m[0]] else []) + (if f[1] then [m[1]] else []) + (if f[2] then [m[2]] else []) +
      (if f[3] then [m[3]] else []) + (if f[4] then [m[4]] else []) + (if f[5] then [m[5]] else [])
  {
    assert m[..5][..4][..3][..2][..1][..0] == [];
    assert Select(m[..1], f[..1]) == (if f[0] then [m[0]] else []);
    assert Select(m[..2], f[..2]) == Select(m[..1], f[..1]) + (if f[1] then [m[1]] else []) by {
      assert m[..2][..1] == m[..1] && f[..2][..1] == f[..1];
    }
    assert Select(m[..3], f[..3]) == Select(m[..2], f[..2]) + (if f[2] then [m[2]] else []) by {
      assert m[..3][..2] == m[..2] && f[..3][..2] == f[..2];
    }
    assert Select(m[..4], f[..4]) == Select(m[..3], f[..3]) + (if f[3] then [m[3]] else []) by {
      assert m[..4][..3] == m[..3] && f[..4][..3] == f[..3];
    }
    assert Select(m[..5], f[..5]) == Select(m[..4], f[..4]) + (if f[4] then [m[4]] else []) by {
      assert m[..5][..4] == m[..4] && f[..5][..4] == f[..4];
    }
    assert Select(m, f) == Select(m[..5], f[..5]) + (if f[5] then [m[5]] else []) by {
      assert m[..5] == m[..|m| - 1] && f[..5] == f[..|f| - 1];
    }
  }

  /** ranks[i] is the check number of message i, and check numbers strictly increase. */
  ghost predicate IsRanking(ranks: seq<nat>, messages: seq<string>) {
    && |ranks| == |messages|
    && (forall i :: 0 <= i < |ranks| ==> ranks[i] < |CheckMessages| && messages[i] == CheckMessages[ranks[i]])
    && (forall i, j :: 0 <= i < j < |ranks| ==> ranks[i] < ranks[j])
  }

  /** Each check contributes its message exactly when it fails, and at most
      once; messages appear in check order. */
  lemma {:induction false} ValidateReportsEachFailedCheck(s: Settings)
    requires WellFormed(s) && Comparable(s)
    ensures Validate(s).Success?
    ensures forall k :: 0 <= k < 6 ==> (CheckMessages[k] in Validate(s).value <==> !Passes(s, k))
    ensures exists ranks :: IsRanking(ranks, Validate(s).value)
  {
    ValidateSelectsFailedChecks(s);
    var f := FailedChecks(s);
    // the six messages have six different lengths, so they are distinct
    assert forall i, j :: 0 <= i < j < 6 ==> |CheckMessages[i]| != |CheckMessages[j]|;
    SelectMembership(CheckMessages, f);
    SelectAt(CheckMessages, f);
    PositionsExact(f);
    assert IsRanking(Positions(f), Select(CheckMessages, f));
  }

  /** validate returns the empty list iff all six checks pass. */
  lemma ValidateEmptyIff(s: Settings)
    requires WellFormed(s)
    ensures Validate(s) == Success([]) <==> Comparable(s) && forall k :: 0 <= k < 6 ==> Passes(s, k)
  {
    if Comparable(s) {
      ValidateSelectsFailedChecks(s);
      SelectAt(CheckMessages, FailedChecks(s));
      PositionsEmpty(FailedChecks(s));
    }
  }

  /** The format setting is accepted iff it is the string json, csv or xlsx. */
  lemma FormatAcceptedIff(s: Settings)
    requires WellFormed(s) && Comparable(s)
    ensures FormatError !in Validate(s).value <==> s.output["format"] in {Str("json"), Str("csv"), Str("xlsx")}
  {
    ValidateReportsEachFailedCheck(s);
    assert CheckMessages[3] == FormatError;
  }

  /** The dataclass defaults are well formed and validate with no errors. */
  lemma DefaultsValidate()
    ensures WellFormed(Defaults)
    ensures Validate(Defaults) == Success([])
  {
    assert Defaults.rateLimit["requests_per_minute"] == Int(30);
    assert Defaults.rateLimit["delay_between_requests"] == Float(2.0);
    assert Defaults.output["directory"] == Str("./output");
    assert Defaults.output["format"] == AcceptedFormats[0];
    assert Defaults.scraping["max_conversations"] == Int(100);
    assert Defaults.scraping["max_retries"] == Int(3);
    assert Number(Int(30)) == Success(30.0);
    assert Number(Float(2.0)) == Success(2.0);
    assert Truthy(Str("./output"));
    assert Str("json") in AcceptedFormats;
    assert Number(Int(100)) == Success(100.0);
    assert Number(Int(3)) == Success(3.0);
    assert Validate(Defaults).Success?;
    assert |Validate(Defaults).value| == 0;
  }

  // ---------------------------------------------------------------------
  // Config.to_dict

  function ToDict(s: Settings): (d: map<string, Section>)
    ensures d.Keys == {RateLimitName, OutputName, ScrapingName, LoggingName}
    ensures d[RateLimitName] == s.rateLimit && d[OutputName] == s.output
    ensures d[ScrapingName] == s.scraping && d[LoggingName] == s.logging
  {
    map[RateLimitName := s.rateLimit, OutputName := s.output, ScrapingName := s.scraping, LoggingName := s.logging]
  }

  /** The JSON document save_to_file writes: to_dict with each section as an object. */
  function SavedDocument(s: Settings): Value {
    var d := ToDict(s);
    Dict(map name | name in d :: Dict(d[name]))
  }

  // ---------------------------------------------------------------------
  // Config.load_from_file

  /** What the file read produced: an exception from open/json.load, or the parsed document. */
  datatype FileRead = Unreadable | Parsed(document: Value)

  /** What `name in config_data` and `config_data[name].items()` do. */
  datatype SectionStep = Absent | Updates(entries: map<string, Value>) | Raises

  /** Python's `needle in hay` on strings. */
  predicate IsSubstring(needle: string, hay: string)
    decreases |hay|
  {
    if |hay| < |needle| then false
    else hay[..|needle|] == needle || (hay != [] && IsSubstring(needle, hay[1..]))
  }

  function SectionLookup(document: Value, name: string): (step: SectionStep)
    ensures step.Updates? <==> document.Dict? && name in document.fields && document.fields[name].Dict?
    ensures step.Updates? ==> step.entries == document.fields[name].fields
    ensures document.Dict? ==> (step.Absent? <==> name !in document.fields)
    ensures document.List? ==> (step.Raises? <==> Str(name) in document.items)
    ensures !document.Dict? && !document.List? && !document.Str? ==> step.Raises?
  {
    match document
    case Dict(fields) =>
      if name !in fields then Absent
      else if fields[name].Dict? then Updates(fields[name].fields)
      else Raises                                   // .items() on a non-dict: AttributeError
    case List(items) => if Str(name) in items then Raises else Absent   // list[str]: TypeError
    case Str(t) => if IsSubstring(name, t) then Raises else Absent      // str[str]: TypeError
    case _ => Raises                                // `in` on null, bool or a number: TypeError
  }

  /** The per-section loop: overwrite the attributes that exist (hasattr), ignore other keys. */
  function MergeSection(section: Section, entries: map<string, Value>): (merged: Section)
    ensures merged.Keys == section.Keys
    ensures forall k :: k in section && k in entries ==> merged[k] == entries[k]
    ensures forall k :: k in section && k !in entries ==> merged[k] == section[k]
  {
    map k | k in section :: if k in entries then entries[k] else section[k]
  }

  function SectionOf(s: Settings, i: nat): Section
    requires i < 4
  {
    match i
    case 0 => s.rateLimit
    case 1 => s.output
    case 2 => s.scraping
    case 3 => s.logging
  }

  function WithSection(s: Settings, i: nat, section: Section): Settings
    requires i < 4
  {
    match i
    case 0 => s.(rateLimit := section)
    case 1 => s.(output := section)
    case 2 => s.(scraping := section)
    case 3 => s.(logging := section)
  }

  /** Replacing a section by one with the same keys keeps the settings well formed. */
  lemma WellFormedWith(s: Settings, i: nat, section: Section)
    requires i < 4 && WellFormed(s) && section.Keys == SectionOf(s, i).Keys
    ensures WellFormed(WithSection(s, i, section))
  {
  }

  /** The settings after a load, and whether it finished without the
      exception handler running. */
  datatype LoadResult = LoadResult(settings: Settings, ok: bool)

  /** The sections from index i on, in order; an exception ends the load
      and keeps what earlier sections already wrote (load_defaults does nothing). */
  function ApplyFrom(s: Settings, document: Value, i: nat): LoadResult
    requires i <= 4
    decreases 4 - i
  {
    if i == 4 then LoadResult(s, true)
    else
      match SectionLookup(document, SectionNames[i])
      case Raises => LoadResult(s, false)
      case Absent => ApplyFrom(s, document, i + 1)
      case Updates(entries) => ApplyFrom(WithSection(s, i, MergeSection(SectionOf(s, i), entries)), document, i + 1)
  }

  function Load(s: Settings, file: FileRead): LoadResult {
    match file
    case Unreadable => LoadResult(s, false)
    case Parsed(document) => ApplyFrom(s, document, 0)
  }

  /** Config(path): load the file when there is one, else keep the defaults. */
  function InitialSettings(file: Option<FileRead>): Settings {
    if file.Some? then Load(Defaults, file.value).settings else Defaults
  }

  /** The lookup of the i-th section. */
  function StepAt(document: Value, i: nat): SectionStep
    requires i < 4
  {
    SectionLookup(document, SectionNames[i])
  }

  /** A section after its step: known keys take the file's value, every
      other attribute keeps its prior value, and no attribute is added. */
  function Merged(section: Section, step: SectionStep): Section {
    if step.Updates? then MergeSection(section, step.entries) else section
  }

  /** The index of the first section from i on whose lookup raises, or 4. */
  function FirstRaise(document: Value, i: nat): (j: nat)
    requires i <= 4
    ensures i <= j <= 4
    decreases 4 - i
  {
    if i == 4 then 4 else if StepAt(document, i).Raises? then i else FirstRaise(document, i + 1)
  }

  lemma SectionOfWith(s: Settings, i: nat, section: Section, j: nat)
    requires i < 4 && j < 4
    ensures SectionOf(WithSection(s, i, section), j) == if i == j then section else SectionOf(s, j)
  {
  }

  /** One non-raising step of the load. */
  lemma ApplyStep(s: Settings, document: Value, i: nat)
    requires i < 4 && !StepAt(document, i).Raises?
    ensures ApplyFrom(s, document, i) ==
      ApplyFrom(WithSection(s, i, Merged(SectionOf(s, i), StepAt(document, i))), document, i + 1)
  {
    if StepAt(document, i).Absent? {
      assert WithSection(s, i, SectionOf(s, i)) == s;
    }
  }

  /** A load stops at the first section whose lookup raises: the sections
      before it are merged, that one and the later ones are untouched (no
      rollback), and the load reports the exception. Without a raising
      section every section is merged and the load succeeds. */
  lemma {:induction false} LoadStopsAtFirstRaise(s: Settings, document: Value, i: nat)
    requires i <= 4
    ensures ApplyFrom(s, document, i).ok <==> FirstRaise(document, i) == 4
    ensures forall j :: 0 <= j < 4 ==>
      SectionOf(ApplyFrom(s, document, i).settings, j) ==
        if i <= j < FirstRaise(document, i) then Merged(SectionOf(s, j), StepAt(document, j)) else SectionOf(s, j)
    decreases 4 - i
  {
    if i < 4 && !StepAt(document, i).Raises? {
      var s' := WithSection(s, i, Merged(SectionOf(s, i), StepAt(document, i)));
      ApplyStep(s, document, i);
      LoadStopsAtFirstRaise(s', document, i + 1);
      forall j | 0 <= j < 4
        ensures SectionOf(ApplyFrom(s, document, i).settings, j) ==
          if i <= j < FirstRaise(document, i) then Merged(SectionOf(s, j), StepAt(document, j)) else SectionOf(s, j)
      {
        SectionOfWith(s, i, Merged(SectionOf(s, i), StepAt(document, i)), j);
      }
    }
  }

  /** A load writes only known keys: every section keeps its key set. */
  lemma LoadKeepsKeys(s: Settings, file: FileRead, j: nat)
    requires j < 4
    ensures SectionOf(Load(s, file).settings, j).Keys == SectionOf(s, j).Keys
  {
    if file.Parsed? {
      LoadStopsAtFirstRaise(s, file.document, 0);
    }
  }

  /** A file that is missing a section, or lists only unknown keys, leaves
      the prior values of that section unchanged. */
  lemma AbsentSectionUnchanged(s: Settings, document: Value, j: nat)
    requires j < 4
    requires SectionLookup(document, SectionNames[j]).Absent?
      || (SectionLookup(document, SectionNames[j]).Updates?
          && SectionLookup(document, SectionNames[j]).entries.Keys !! SectionOf(s, j).Keys)
    ensures SectionOf(Load(s, Parsed(document)).settings, j) == SectionOf(s, j)
  {
    LoadStopsAtFirstRaise(s, document, 0);
    assert Merged(SectionOf(s, j), StepAt(document, j)) == SectionOf(s, j);
  }

  /** Loading the document save_to_file writes gives back the same settings. */
  lemma SaveThenLoad(s: Settings)
    ensures Load(s, Parsed(SavedDocument(s))) == LoadResult(s, true)
  {
    var doc := SavedDocument(s);
    forall j | 0 <= j < 4
      ensures StepAt(doc, j) == Updates(SectionOf(s, j))
      ensures MergeSection(SectionOf(s, j), SectionOf(s, j)) == SectionOf(s, j)
    {
    }
    assert FirstRaise(doc, 0) == 4;
    LoadStopsAtFirstRaise(s, doc, 0);
    var r := Load(s, Parsed(doc)).settings;
    assert SectionOf(r, 0) == SectionOf(s, 0);
    assert SectionOf(r, 1) == SectionOf(s, 1);
    assert SectionOf(r, 2) == SectionOf(s, 2);
    assert SectionOf(r, 3) == SectionOf(s, 3);
  }

  // ---------------------------------------------------------------------
  // The Config object

  /** The per-section loop of load_from_file: walk the parsed entries, and
      setattr those whose key is an attribute of the section. */
  method MergeKnownKeys(section: Section, entries: map<string, Value>) returns (merged: Section)
    ensures merged == MergeSection(section, entries)
    ensures merged.Keys == section.Keys
  {
    merged := section;
    var pending := entries.Keys;
    while pending != {}
      invariant pending <= entries.Keys
      invariant merged == MergeSection(section, entries - pending)
      decreases pending
    {
      var key :| key in pending;
      if key in merged {
        merged := merged[key := entries[key]];
      }
      pending := pending - {key};
      assert merged == MergeSection(section, entries - pending);
    }
    assert entries - pending == entries;
  }

  class Config {
    var rateLimit: Section
    var output: Section
    var scraping: Section
    var logging: Section

    function Current(): Settings
      reads this
    {
      Settings(rateLimit, output, scraping, logging)
    }

    ghost predicate Valid()
      reads this
    {
      WellFormed(Current())
    }

    /** Config(config_path): defaults, then the file if there is one. */
    constructor (file: Option<FileRead>)
      ensures Valid()
      ensures Current() == InitialSettings(file)
    {
      rateLimit, output, scraping, logging := DefaultRateLimit, DefaultOutput, DefaultScraping, DefaultLogging;
      new;
      if file.Some? {
        var _ := LoadFromFile(file.value);
      } else {
        LoadDefaults();
      }
    }

    /** Defaults are already set by the dataclass definitions: nothing to do. */
    method LoadDefaults()
    {
    }

    /** One `if name in config_data:` block of load_from_file: false when
        the lookup raised, in which case nothing was written. */
    method LoadSection(document: Value, i: nat) returns (applied: bool)
      requires Valid() && i < 4
      modifies this
      ensures Valid()
      ensures applied == !StepAt(document, i).Raises?
      ensures Current() == if applied then WithSection(old(Current()), i, Merged(SectionOf(old(Current()), i), StepAt(document, i))) else old(Current())
    {
      var step := SectionLookup(document, SectionNames[i]);
      if step.Raises? {
        return false;
      }
      if step.Updates? {
        var merged := MergeKnownKeys(SectionOf(Current(), i), step.entries);
        SetSection(i, merged);
      }
      applied := true;
    }

    /** Store section i, which has the same attributes as before. */
    method SetSection(i: nat, section: Section)
      requires Valid() && i < 4 && section.Keys == SectionOf(Current(), i).Keys
      modifies this
      ensures Current() == WithSection(old(Current()), i, section)
      ensures Valid()
    {
      WellFormedWith(Current(), i, section);
      if i == 0 {
        rateLimit := section;
      } else if i == 1 {
        output := section;
      } else if i == 2 {
        scraping := section;
      } else {
        logging := section;
      }
    }

    /** load_from_file; ok is false when the exception handler ran. */
    method LoadFromFile(file: FileRead) returns (ok: bool)
      requires Valid()
      modifies this
      ensures Valid()
      ensures Current() == Load(old(Current()), file).settings
      ensures ok == Load(old(Current()), file).ok
    {
      if file.Unreadable? {
        LoadDefaults();
        return false;
      }
      var document := file.document;
      ghost var s0 := Current();
      var applied := LoadSection(document, 0);       // rate_limit
      if !applied {
        LoadDefaults();
        return false;
      }
      ApplyStep(s0, document, 0);
      ghost var s1 := Current();
      applied := LoadSection(document, 1);           // output
      if !applied {
        LoadDefaults();
        return false;
      }
      ApplyStep(s1, document, 1);
      ghost var s2 := Current();
      applied := LoadSection(document, 2);           // scraping
      if !applied {
        LoadDefaults();
        return false;
      }
      ApplyStep(s2, document, 2);
      ghost var s3 := Current();
      applied := LoadSection(document, 3);           // logging
      if !applied {
        LoadDefaults();
        return false;
      }
      ApplyStep(s3, document, 3);
      ok := true;
    }
  }
}
