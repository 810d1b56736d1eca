/** The settings page of the plugin: the sanitize callbacks registered for its
    two option groups, their defaults, the insert-if-absent initialisation, and
    the choice of the tab to render.

    strip_tags and stripslashes belong to PHP and are parameters here. Most
    properties below hold whatever they do; the ones that do not say what they
    assume in their requires. PHP's own stripslashes is Php.StripSlashes, used
    where a lemma depends on what stripslashes does. */
module Admin {
  import opened Php
  import opened WordPress

  const GeneralOptionName := "plugin_name_general_options"
  const InputExamplesOptionName := "plugin_name_input_examples"
  const GeneralTab := "general_options"
  const InputExamplesTab := "input_examples"

  /** The value stored for a submitted value v: slashes stripped first, then tags. */
  function Clean(v: Value, stripSlashes: string -> string, stripTags: string -> string): Value
  {
    Str(stripTags(stripSlashes(ToPhpString(v))))
  }

  /** Keys of the submission whose value passes isset(). */
  function SetKeys(input: PhpArray): set<string>
  {
    set k | k in input && input[k] != Null
  }

  /** What a sanitize callback returns for a submission. */
  function Sanitized(input: PhpArray, stripSlashes: string -> string, stripTags: string -> string): PhpArray
  {
    map k | k in SetKeys(input) :: Clean(input[k], stripSlashes, stripTags)
  }

  /** A string that stripslashes and strip_tags have nothing to remove from. */
  predicate Plain(s: string)
  {
    '\\' !in s && '<' !in s && '\0' !in s
  }

  /** The foreach loop shared, word for word, by both sanitize callbacks. */
  method SanitizeEach(input: PhpArray, stripSlashes: string -> string, stripTags: string -> string)
    returns (output: PhpArray)
    ensures output.Keys == SetKeys(input) && output.Keys <= input.Keys
    ensures forall k :: k in output ==> output[k] == Str(stripTags(stripSlashes(ToPhpString(input[k]))))
    ensures output == Sanitized(input, stripSlashes, stripTags)
  {
    output := map[];
    var pending := input.Keys;
    while pending != {}
      invariant pending <= input.Keys
      invariant output.Keys == SetKeys(input) - pending
      invariant forall k :: k in output ==> output[k] == Clean(input[k], stripSlashes, stripTags)
      decreases pending
    {
      var key :| key in pending;
      if input[key] != Null {
        output := output[key := Clean(input[key], stripSlashes, stripTags)];
      }
      pending := pending - {key};
    }
  }

  /** Sanitising an already sanitized array changes nothing exactly when the
      composed filters, applied once more, leave every value of the first pass
      alone: every stored value is a string, which the second pass cleans again. */
  lemma SanitizeIdempotentIff(input: PhpArray, stripSlashes: string -> string, stripTags: string -> string)
    ensures Sanitized(Sanitized(input, stripSlashes, stripTags), stripSlashes, stripTags)
              == Sanitized(input, stripSlashes, stripTags)
        <==> forall k :: k in SetKeys(input) ==>
               var once := stripTags(stripSlashes(ToPhpString(input[k])));
               stripTags(stripSlashes(once)) == once
  {
    var once := Sanitized(input, stripSlashes, stripTags);
    var twice := Sanitized(once, stripSlashes, stripTags);
    assert SetKeys(once) == once.Keys;
    forall k | k in once
      ensures ToPhpString(once[k]) == stripTags(stripSlashes(ToPhpString(input[k])))
      ensures twice[k] == Str(stripTags(stripSlashes(ToPhpString(once[k]))))
    {
    }
    if twice == once {
      forall k | k in SetKeys(input)
        ensures var s := stripTags(stripSlashes(ToPhpString(input[k])));
                stripTags(stripSlashes(s)) == s
      {
        assert twice[k] == once[k];
      }
    }
  }

  /** A second pass is not a no-op once the first pass leaves a lone backslash
      that stripslashes drops and strip_tags keeps: the value becomes "". */
  lemma SecondPassStripsAgain(input: PhpArray, key: string, stripSlashes: string -> string, stripTags: string -> string)
    requires key in input && input[key] != Null
    requires stripTags(stripSlashes(ToPhpString(input[key]))) == "\\"
    requires stripSlashes("\\") == "" && stripTags("") == ""
    ensures Sanitized(Sanitized(input, stripSlashes, stripTags), stripSlashes, stripTags)[key] == Str("")
    ensures Sanitized(Sanitized(input, stripSlashes, stripTags), stripSlashes, stripTags)
         != Sanitized(input, stripSlashes, stripTags)
  {
    var once := Sanitized(input, stripSlashes, stripTags);
    assert once[key] == Str("\\");
    assert key in SetKeys(once);
  }

  /** With PHP's stripslashes, a submitted "\\" is stored as "\\" and, saved
      again, as "": each pass through the sanitizer strips one more level of
      backslashes, whatever strip_tags does, as long as it keeps a lone
      backslash and the empty string. */
  lemma PhpSanitizerIsNotIdempotent(stripTags: string -> string)
    requires stripTags("\\") == "\\" && stripTags("") == ""
    ensures var input := map["input_example" := Str("\\\\")];
            && Sanitized(input, StripSlashes, stripTags) == map["input_example" := Str("\\")]
            && Sanitized(Sanitized(input, StripSlashes, stripTags), StripSlashes, stripTags)
               == map["input_example" := Str("")]
  {
    var input := map["input_example" := Str("\\\\")];
    StripSlashesDropsOneLevel();
    assert SetKeys(input) == {"input_example"};
    var once := Sanitized(input, StripSlashes, stripTags);
    assert once["input_example"] == Str("\\");
    assert SetKeys(once) == {"input_example"};
  }

  /** A plain string comes out of the two filters as it went in. */
  lemma PlainSurvives(v: string, stripSlashes: string -> string, stripTags: string -> string)
    requires forall s :: Plain(s) ==> stripSlashes(s) == s
    requires forall s :: Plain(s) ==> stripTags(s) == s
    requires Plain(v)
    ensures stripTags(stripSlashes(v)) == v
  {
    assert stripSlashes(v) == v;
  }

  /** An unchecked checkbox is not submitted, so the sanitized array has no
      entry for it at all: nothing stores false in its place. */
  lemma UncheckedCheckboxIsDropped(input: PhpArray, stripSlashes: string -> string, stripTags: string -> string)
    requires "debug" !in input
    ensures "debug" !in Sanitized(input, stripSlashes, stripTags)
    ensures "checkbox_example" !in input ==> "checkbox_example" !in Sanitized(input, stripSlashes, stripTags)
  {
  }

  /** What the two nav tabs and the form show for a request. */
  datatype PageSelection = PageSelection(activeTab: string, generalTabActive: bool,
                                         inputTabActive: bool, group: string)

  class AdminSettings {
    const pluginSlug: string

    constructor(pluginSlug: string)
      ensures this.pluginSlug == pluginSlug
    {
      this.pluginSlug := pluginSlug;
    }

    /** Defaults of the general group. */
    function DefaultGeneralOptions(): (defaults: PhpArray)
      ensures defaults.Keys == {"debug"}
      ensures defaults["debug"] == Bool(false)
    {
      map["debug" := Bool(false)]
    }

    /** Defaults of the input-examples group. */
    function DefaultInputOptions(): (defaults: PhpArray)
      ensures defaults.Keys == {"input_example", "textarea_example", "checkbox_example", "radio_example", "time_options"}
      ensures defaults["input_example"] == Str("default input example")
      ensures defaults["textarea_example"] == Str("") && defaults["checkbox_example"] == Str("")
      ensures defaults["radio_example"] == Str("2") && defaults["time_options"] == Str("default")
    {
      map["input_example" := Str("default input example"),
          "textarea_example" := Str(""),
          "checkbox_example" := Str(""),
          "radio_example" := Str("2"),
          "time_options" := Str("default")]
    }

    /** The insert-if-absent part of initializeGeneralOptions. */
    method InitializeGeneralOptions(host: Host)
      modifies host`blogOptions
      ensures host.blogOptions
           == old(host.blogOptions)[host.currentBlog := InsertIfAbsent(old(host.Options()), GeneralOptionName, DefaultGeneralOptions())]
    {
      if host.GetOption(GeneralOptionName).None? {
        host.UpdateOption(GeneralOptionName, DefaultGeneralOptions());
      }
    }

    /** The insert-if-absent part of initializeInputExamples. */
    method InitializeInputExamples(host: Host)
      modifies host`blogOptions
      ensures host.blogOptions
           == old(host.blogOptions)[host.currentBlog := InsertIfAbsent(old(host.Options()), InputExamplesOptionName, DefaultInputOptions())]
    {
      if host.GetOption(InputExamplesOptionName).None? {
        host.UpdateOption(InputExamplesOptionName, DefaultInputOptions());
      }
    }

    /** Sanitize callback of the general group. The submission is None when it is
        not an array: WordPress passes null when the form posts nothing under the
        option name (the general form with debug unchecked), and foreach over a
        non-array only warns, so the empty array is returned. */
    method SanitizeGeneralOptionsCallback(input: Option<PhpArray>, stripSlashes: string -> string, stripTags: string -> string)
      returns (output: PhpArray)
      ensures input.None? ==> output == map[]
      ensures input.Some? ==> output.Keys == SetKeys(input.value)
      ensures input.Some? ==> forall k :: k in output ==> output[k] == Str(stripTags(stripSlashes(ToPhpString(input.value[k]))))
      ensures input.Some? ==> output == Sanitized(input.value, stripSlashes, stripTags)
    {
      if input.None? {
        return map[];
      }
      output := SanitizeEach(input.value, stripSlashes, stripTags);
    }

    /** Sanitize callback of the input-examples group: the same function of its input. */
    method SanitizeInputExamplesOptionsCallback(input: Option<PhpArray>, stripSlashes: string -> string, stripTags: string -> string)
      returns (output: PhpArray)
      ensures input.None? ==> output == map[]
      ensures input.Some? ==> output.Keys == SetKeys(input.value)
      ensures input.Some? ==> forall k :: k in output ==> output[k] == Str(stripTags(stripSlashes(ToPhpString(input.value[k]))))
      ensures input.Some? ==> output == Sanitized(input.value, stripSlashes, stripTags)
    {
      if input.None? {
        return map[];
      }
      output := SanitizeEach(input.value, stripSlashes, stripTags);
    }

    /** If the general defaults were passed to the sanitizer, debug = false would
        become the string that strip_tags(stripslashes("")) gives: the boolean
        would not be kept. */
    lemma GeneralDefaultsLoseBoolean(stripSlashes: string -> string, stripTags: string -> string)
      ensures Sanitized(DefaultGeneralOptions(), stripSlashes, stripTags)
           == map["debug" := Str(stripTags(stripSlashes("")))]
      ensures Sanitized(DefaultGeneralOptions(), stripSlashes, stripTags) != DefaultGeneralOptions()
    {
      var d := DefaultGeneralOptions();
      assert SetKeys(d) == {"debug"};
      assert ToPhpString(d["debug"]) == "";
    }

    /** The input-examples defaults survive the sanitizer unchanged when
        stripslashes and strip_tags leave plain strings alone. */
    lemma InputDefaultsAreFixedPoint(stripSlashes: string -> string, stripTags: string -> string)
      requires forall s :: Plain(s) ==> stripSlashes(s) == s
      requires forall s :: Plain(s) ==> stripTags(s) == s
      ensures Sanitized(DefaultInputOptions(), stripSlashes, stripTags) == DefaultInputOptions()
    {
      PlainSurvives("default input example", stripSlashes, stripTags);
      PlainSurvives("", stripSlashes, stripTags);
      PlainSurvives("2", stripSlashes, stripTags);
      PlainSurvives("default", stripSlashes, stripTags);
      var d := DefaultInputOptions();
      assert SetKeys(d) == d.Keys;
    }

    /** The tab the page shows: the tab query parameter, general_options when
        absent; the general group renders for general_options and the
        input-examples group for anything else. */
    function SettingsPage(tab: Option<string>): (page: PageSelection)
      ensures page.activeTab == (if tab.Some? then tab.value else GeneralTab)
      ensures page.generalTabActive <==> page.activeTab == GeneralTab
      ensures page.inputTabActive <==> page.activeTab == InputExamplesTab
      ensures page.group == (if page.activeTab == GeneralTab then GeneralOptionName else InputExamplesOptionName)
      ensures tab.None? ==> page.group == GeneralOptionName && page.generalTabActive
      ensures page.group == GeneralOptionName <==> page.generalTabActive
      ensures page.inputTabActive ==> page.group == InputExamplesOptionName
      ensures !(page.generalTabActive && page.inputTabActive)
    {
      var active := if tab.Some? then tab.value else GeneralTab;
      PageSelection(active, active == GeneralTab, active == InputExamplesTab,
                    if active == GeneralTab then GeneralOptionName else InputExamplesOptionName)
    }

    /** A tab value naming neither tab renders the input-examples group with no
        nav tab marked active. */
    lemma UnknownTabHasNoActiveNavTab(tab: string)
      requires tab != GeneralTab && tab != InputExamplesTab
      ensures SettingsPage(Some(tab)).group == InputExamplesOptionName
      ensures !SettingsPage(Some(tab)).generalTabActive && !SettingsPage(Some(tab)).inputTabActive
    {
    }
  }
}
