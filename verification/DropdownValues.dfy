/** Dropdown parameters: a label the composer wrote becomes the value that label stands for, before it is stored. */
module DropdownValues {
  import opened Protocol
  import opened JsMaps
  import opened Texts

  /** A parameter or option value: a string, or anything else with the text the host prints for it. */
  datatype Value = Text(s: string) | NonText(printed: string)

  function Printed(v: Value): string {
    match v
    case Text(s) => s
    case NonText(printed) => printed
  }

  datatype DropdownOption = DropdownOption(shown: string, value: Value)

  /** An entry of a schema's option list; the label is `None` when it is no string. */
  datatype RawOption = RawOption(shown: Option<string>, value: Value)

  /**
   A parameter's schema: its `type` when that is a string, its `options` when that is a list, `None` for entries that
   are no objects.
   */
  datatype Def = Def(kind: Option<string>, options: Option<seq<Option<RawOption>>>)

  /** The host's part: the live options of a parameter, if they load, and the host's lower case. */
  datatype Host = Host(load: string -> Option<seq<DropdownOption>>, lower: string -> string)

  predicate OptionKind(kind: string) {
    kind in {"DROPDOWN", "STATIC_DROPDOWN"}
  }

  function Normalize(text: string, host: Host): string {
    var t := Trim(text);
    host.lower(if t != "" && t[0] in "#@" then t[1..] else t)
  }

  function OptionsOf(raw: seq<Option<RawOption>>): seq<DropdownOption> {
    if raw == [] then []
    else
      match raw[0]
      case None => OptionsOf(raw[1..])
      case Some(o) =>
        [DropdownOption(if o.shown.Some? then o.shown.value else Printed(o.value), o.value)] + OptionsOf(raw[1..])
  }

  function OptionsInSchema(def: Def): Option<seq<DropdownOption>> {
    if def.options.None? then None else Some(OptionsOf(def.options.value))
  }

  /** The index of the first option with a property, or the number of options: `find`. */
  function Find(options: seq<DropdownOption>, p: DropdownOption -> bool, from: nat): (r: nat)
    requires from <= |options|
    ensures from <= r <= |options|
    ensures r < |options| ==> p(options[r])
    ensures forall i :: from <= i < r ==> !p(options[i])
    decreases |options| - from
  {
    if from == |options| || p(options[from]) then from else Find(options, p, from + 1)
  }

  function MatchByLabel(options: seq<DropdownOption>, written: string, host: Host): Option<DropdownOption> {
    var exact := Find(options, (o: DropdownOption) => o.shown == written, 0);
    if exact < |options| then Some(options[exact])
    else
      var alike := Find(options, (o: DropdownOption) => Normalize(o.shown, host) == Normalize(written, host), 0);
      if alike < |options| then Some(options[alike]) else None
  }

  predicate HasReference(s: string) {
    exists i :: 0 <= i < |s| - 1 && s[i] == '{' && s[i + 1] == '{'
  }

  /** The options a parameter's value has to come from, if it is an option parameter and they are known. */
  function OptionsFor(schema: map<string, Def>, key: string, host: Host): seq<DropdownOption> {
    if key !in schema || schema[key].kind.None? || !OptionKind(schema[key].kind.value) then []
    else
      var known := if schema[key].kind.value == "STATIC_DROPDOWN" then OptionsInSchema(schema[key]) else host.load(key);
      if known.Some? then known.value else []
  }

  predicate IsValueOf(options: seq<DropdownOption>, written: string) {
    exists i :: 0 <= i < |options| && Printed(options[i].value) == written
  }

  datatype Note =
    | Stored(key: string, written: string, value: Value)
    | Unmatched(key: string, written: string, labels: seq<string>)

  function SampleLabels(options: seq<DropdownOption>): seq<string> {
    seq(if |options| < 8 then |options| else 8, i requires 0 <= i < |options| => options[i].shown)
  }

  /** What becomes of one parameter, and what is said of it. */
  function Resolved(schema: map<string, Def>, key: string, value: Value, host: Host): (Value, seq<Note>) {
    var options := OptionsFor(schema, key, host);
    if options == [] || value.NonText? || HasReference(value.s) || IsValueOf(options, value.s) then (value, [])
    else
      match MatchByLabel(options, value.s, host)
      case Some(o) => (o.value, [Stored(key, value.s, o.value)])
      case None => (value, [Unmatched(key, value.s, SampleLabels(options))])
  }

  function AllNotes(schema: map<string, Def>, parameters: JsMap<Value>, n: nat, host: Host): seq<Note>
    requires n <= |parameters.keys|
  {
    if n == 0 then []
    else
      var key := parameters.keys[n - 1];
      AllNotes(schema, parameters, n - 1, host) +
      (if key in parameters.at then Resolved(schema, key, parameters.at[key], host).1 else [])
  }

  /** Every parameter resolved on its own. */
  ghost predicate ResolvedAll(schema: map<string, Def>, parameters: JsMap<Value>, host: Host, result: JsMap<Value>) {
    && result.keys == parameters.keys
    && result.at.Keys == parameters.at.Keys
    && (forall key :: key in parameters.at ==> result.at[key] == Resolved(schema, key, parameters.at[key], host).0)
  }

  method ResolveDropdownParams(schema: map<string, Def>, parameters: JsMap<Value>, host: Host)
    returns (resolved: JsMap<Value>, notes: seq<Note>)
    requires parameters.Valid()
    ensures ResolvedAll(schema, parameters, host, resolved)
    ensures notes == AllNotes(schema, parameters, |parameters.keys|, host)
  {
    hide MatchByLabel, HasReference, IsValueOf, SampleLabels;
    hide OptionsInSchema, OptionKind, Done, AllNotes, JsMap<Value>.Valid;
    resolved, notes := parameters, [];
    NoneDone(schema, parameters, host);
    for i := 0 to |parameters.keys|
      invariant Done(schema, parameters, i, host, resolved)
      invariant notes == AllNotes(schema, parameters, i, host)
    {
      var key := parameters.keys[i];
      OneMore(schema, parameters, i, host, resolved);
      var value := parameters.at[key];
      if key !in schema { continue; }
      var kind := schema[key].kind;
      if kind == None || !OptionKind(kind.value) { continue; }
      if value.NonText? || HasReference(value.s) { continue; }
      var options := if kind.value == "STATIC_DROPDOWN" then OptionsInSchema(schema[key]) else host.load(key);
      if options == None || |options.value| == 0 { continue; }
      if IsValueOf(options.value, value.s) { continue; }
      var found := MatchByLabel(options.value, value.s, host);
      if found.Some? {
        resolved := resolved.Set(key, found.value.value);
        notes := notes + [Stored(key, value.s, found.value.value)];
      } else {
        notes := notes + [Unmatched(key, value.s, SampleLabels(options.value))];
      }
    }
    AllDone(schema, parameters, host, resolved);
  }

  /** The first `n` parameters are resolved, the others as they were written. */
  ghost predicate Done(schema: map<string, Def>, parameters: JsMap<Value>, n: nat, host: Host, result: JsMap<Value>)
    requires n <= |parameters.keys|
  {
    && result.keys == parameters.keys
    && result.at.Keys == parameters.at.Keys
    && (forall key | key in parameters.at ::
          result.at[key] ==
            if key !in parameters.keys[..n] then parameters.at[key]
            else Resolved(schema, key, parameters.at[key], host).0)
  }

  lemma NoneDone(schema: map<string, Def>, parameters: JsMap<Value>, host: Host)
    ensures Done(schema, parameters, 0, host, parameters) && AllNotes(schema, parameters, 0, host) == []
  {
  }

  lemma AllDone(schema: map<string, Def>, parameters: JsMap<Value>, host: Host, result: JsMap<Value>)
    requires parameters.Valid() && Done(schema, parameters, |parameters.keys|, host, result)
    ensures ResolvedAll(schema, parameters, host, result)
  {
    hide Resolved;
    assert parameters.keys[..|parameters.keys|] == parameters.keys;
  }

  lemma KeyAt(parameters: JsMap<Value>, i: nat)
    requires i < |parameters.keys| && parameters.Valid()
    ensures var key := parameters.keys[i];
      key in parameters.at && key !in parameters.keys[..i] && parameters.keys[..i + 1] == parameters.keys[..i] + [key]
  {
    assert parameters.keys[i] in parameters.keys;
  }

  lemma OneMore(schema: map<string, Def>, parameters: JsMap<Value>, i: nat, host: Host, result: JsMap<Value>)
    requires i < |parameters.keys| && parameters.Valid() && Done(schema, parameters, i, host, result)
    ensures parameters.keys[i] in parameters.at
    ensures var key := parameters.keys[i];
      var r := Resolved(schema, key, parameters.at[key], host);
      && Done(schema, parameters, i + 1, host, result.Set(key, r.0))
      && (r.0 == parameters.at[key] ==> result.Set(key, r.0) == result)
      && AllNotes(schema, parameters, i + 1, host) == AllNotes(schema, parameters, i, host) + r.1
  {
    hide Resolved, Done, AllNotes, JsMap<Value>.Valid, JsMap<Value>.Set;
    var key := parameters.keys[i];
    KeyAt(parameters, i);
    UntouchedAt(schema, parameters, i, host, result);
    DoneAt(schema, parameters, i, host, result);
    NotesAt(schema, parameters, i, host);
  }

  lemma UntouchedAt(schema: map<string, Def>, parameters: JsMap<Value>, i: nat, host: Host, result: JsMap<Value>)
    requires i < |parameters.keys| && Done(schema, parameters, i, host, result)
    requires var key := parameters.keys[i]; key in parameters.at && key !in parameters.keys[..i]
    ensures var key := parameters.keys[i]; result.Set(key, parameters.at[key]) == result
  {
    hide Resolved;
    assert result.at[parameters.keys[i]] == parameters.at[parameters.keys[i]];
  }

  lemma DoneAt(schema: map<string, Def>, parameters: JsMap<Value>, i: nat, host: Host, result: JsMap<Value>)
    requires i < |parameters.keys| && Done(schema, parameters, i, host, result)
    requires parameters.keys[i] in parameters.at
    requires parameters.keys[..i + 1] == parameters.keys[..i] + [parameters.keys[i]]
    ensures var key := parameters.keys[i];
      Done(schema, parameters, i + 1, host, result.Set(key, Resolved(schema, key, parameters.at[key], host).0))
  {
    hide Resolved;
  }

  lemma NotesAt(schema: map<string, Def>, parameters: JsMap<Value>, i: nat, host: Host)
    requires i < |parameters.keys| && parameters.keys[i] in parameters.at
    ensures var key := parameters.keys[i];
      AllNotes(schema, parameters, i + 1, host) ==
        AllNotes(schema, parameters, i, host) + Resolved(schema, key, parameters.at[key], host).1
  {
    hide Resolved;
  }

  // ---- What resolving means --------------------------------------------------------------------

  predicate MatchedBy(o: DropdownOption, written: string, host: Host) {
    o.shown == written || Normalize(o.shown, host) == Normalize(written, host)
  }

  /** The first option under just this label, or, where there is none, the first that is alike. */
  predicate FirstMatch(options: seq<DropdownOption>, i: nat, written: string, host: Host) {
    && i < |options|
    && MatchedBy(options[i], written, host)
    && (forall j :: 0 <= j < i ==> options[j].shown != written)
    && (options[i].shown != written ==>
          && (forall j :: 0 <= j < |options| ==> options[j].shown != written)
          && (forall j :: 0 <= j < i ==> !MatchedBy(options[j], written, host)))
  }

  /** A string reads as itself, anything else as the host prints it. */
  predicate ReadsAs(v: Value, text: string) {
    if v.Text? then v.s == text else v.printed == text
  }

  lemma MatchFinds(options: seq<DropdownOption>, written: string, host: Host)
    ensures var m := MatchByLabel(options, written, host);
      && (m.Some? <==> exists i :: 0 <= i < |options| && MatchedBy(options[i], written, host))
      && (m.Some? ==> exists i: nat :: FirstMatch(options, i, written, host) && options[i] == m.value)
  {
    var exact := Find(options, (o: DropdownOption) => o.shown == written, 0);
    var alike := Find(options, (o: DropdownOption) => Normalize(o.shown, host) == Normalize(written, host), 0);
    hide Normalize;
    if exact < |options| {
      assert FirstMatch(options, exact, written, host);
    } else if alike < |options| {
      assert FirstMatch(options, alike, written, host);
    } else {
      assert forall i :: 0 <= i < |options| ==> options[i].shown != written;
    }
  }

  /** Labels are alike whatever blanks stand around them, whatever one mark they begin with, and in whatever case. */
  lemma NormalizedIs(a: string, mark: string, word: string, b: string, host: Host)
    requires AllBlank(a) && AllBlank(b) && Tight(mark + word) && mark in {"", "#", "@"}
    requires mark == "" && word != "" ==> word[0] != '#' && word[0] != '@'
    ensures Normalize(a + (mark + word) + b, host) == host.lower(word)
  {
    TrimIs(a, mark + word, b);
    hide Trim;
    if mark != "" {
      assert (mark + word)[1..] == word;
    } else {
      assert mark + word == word;
    }
  }

  predicate BracesAt(s: string, i: int) {
    0 <= i <= |s| - 2 && s[i..i + 2] == "{{"
  }

  /** A reference is any text with an opening pair of braces. */
  lemma ReferenceIs(s: string)
    ensures HasReference(s) <==> exists i :: BracesAt(s, i)
  {
    forall i | 0 <= i < |s| - 1
      ensures BracesAt(s, i) <==> s[i] == '{' && s[i + 1] == '{'
    {
      assert s[i..i + 2] == [s[i], s[i + 1]];
    }
    if i :| BracesAt(s, i) {
      assert s[i] == '{' && s[i + 1] == '{';
    }
    if HasReference(s) {
      var i :| 0 <= i < |s| - 1 && s[i] == '{' && s[i + 1] == '{';
      assert BracesAt(s, i);
    }
  }

  /** How many entries of a schema's list are options. */
  function Entries(raw: seq<Option<RawOption>>): nat {
    if raw == [] then 0 else (if raw[0].Some? then 1 else 0) + Entries(raw[1..])
  }

  /** The options of a schema are its entries that are objects, in order, each under its label or its printed value. */
  lemma {:induction false} OptionsAreEntries(raw: seq<Option<RawOption>>, i: nat)
    requires i < |raw|
    ensures |OptionsOf(raw)| == Entries(raw)
    ensures raw[i].Some? ==>
      var at, o := Entries(raw[..i]), raw[i].value;
      && at < |OptionsOf(raw)|
      && OptionsOf(raw)[at].value == o.value
      && (o.shown.Some? ==> OptionsOf(raw)[at].shown == o.shown.value)
      && (o.shown.None? && o.value.Text? ==> OptionsOf(raw)[at].shown == o.value.s)
      && (o.shown.None? && o.value.NonText? ==> OptionsOf(raw)[at].shown == o.value.printed)
  {
    if i == 0 {
      assert raw[..0] == [];
      if |raw| > 1 {
        OptionsAreEntries(raw[1..], 0);
      }
    } else {
      OptionsAreEntries(raw[1..], i - 1);
      assert raw[..i][1..] == raw[1..][..i - 1] && raw[..i][0] == raw[0] && raw[1..][i - 1] == raw[i];
    }
  }

  /** Whose options: a static dropdown's are its schema's, a live one's what loads, and nothing else has any. */
  lemma OptionsFrom(schema: map<string, Def>, key: string, host: Host)
    ensures var options := OptionsFor(schema, key, host);
      && (key !in schema || (schema[key].kind != Some("DROPDOWN") && schema[key].kind != Some("STATIC_DROPDOWN")) ==>
            options == [])
      && (key in schema && schema[key].kind == Some("STATIC_DROPDOWN") ==>
            options == if schema[key].options.Some? then OptionsOf(schema[key].options.value) else [])
      && (key in schema && schema[key].kind == Some("DROPDOWN") ==>
            options == if host.load(key).Some? then host.load(key).value else [])
  {
  }

  /** What is said of parameters is said in their order, at most one thing of each. */
  lemma {:induction false} NotesFollowParameters(
    schema: map<string, Def>, parameters: JsMap<Value>, n: nat, host: Host, i: nat)
    requires i < n <= |parameters.keys|
    ensures var key, before := parameters.keys[i], AllNotes(schema, parameters, i, host);
      var said := if key in parameters.at then Resolved(schema, key, parameters.at[key], host).1 else [];
      && |said| <= 1 && (said != [] ==> said[0].key == key)
      && before + said <= AllNotes(schema, parameters, n, host)
  {
    hide OptionsFor, HasReference, IsValueOf, MatchByLabel, SampleLabels;
    if i + 1 < n {
      NotesFollowParameters(schema, parameters, n - 1, host, i);
    }
    hide Resolved;
  }

  /**
   A parameter is rewritten, or found unmatched, exactly when it is an option parameter with known options holding a
   string that is no reference and none of the option values; it is rewritten exactly when, moreover, a label matches.
   The new value is the one that label stands for: the first exact label's, else the first's that is alike. What is said
   names the parameter, what was written and what was stored, or the labels of the first eight options.
   */
  lemma RewrittenExactlyWhen(schema: map<string, Def>, key: string, value: Value, host: Host)
    ensures var options, r := OptionsFor(schema, key, host), Resolved(schema, key, value, host);
      && (r.1 != [] <==>
            && options != [] && value.Text? && !HasReference(value.s)
            && forall i :: 0 <= i < |options| ==> !ReadsAs(options[i].value, value.s))
      && (r.0 != value <==> r.1 != [] && exists i :: 0 <= i < |options| && MatchedBy(options[i], value.s, host))
      && (r.0 != value ==> exists i: nat :: FirstMatch(options, i, value.s, host) && options[i].value == r.0)
      && (r.1 != [] && r.0 != value ==> r.1 == [Stored(key, value.s, r.0)])
      && (r.1 != [] && r.0 == value ==> r.1 == [Unmatched(key, value.s, SampleLabels(options))])
      && (|SampleLabels(options)| == if |options| < 8 then |options| else 8)
      && (forall i :: 0 <= i < |SampleLabels(options)| ==> SampleLabels(options)[i] == options[i].shown)
  {
    var options := OptionsFor(schema, key, host);
    if options != [] && value.Text? && !HasReference(value.s) && !IsValueOf(options, value.s) {
      MatchFinds(options, value.s, host);
      var m := MatchByLabel(options, value.s, host);
      if m.Some? {
        var i: nat :| FirstMatch(options, i, value.s, host) && options[i] == m.value;
        assert Printed(options[i].value) != value.s;
      }
    }
    hide MatchByLabel, OptionsFor, HasReference, MatchedBy;
  }

  /** A resolved value stays: its text is an option's, or it is not a string to resolve. */
  lemma ResolvedStays(schema: map<string, Def>, key: string, value: Value, host: Host)
    ensures var v := Resolved(schema, key, value, host).0;
      && Resolved(schema, key, v, host).0 == v
      && Resolved(schema, key, v, host).1 == if v == value then Resolved(schema, key, value, host).1 else []
  {
    RewrittenExactlyWhen(schema, key, value, host);
    var v, options := Resolved(schema, key, value, host).0, OptionsFor(schema, key, host);
    hide OptionsFor, MatchByLabel, HasReference, MatchedBy;
    if v != value {
      var i: nat :| FirstMatch(options, i, value.s, host) && options[i].value == v;
      assert v.Text? ==> IsValueOf(options, v.s);
    }
  }

  /** With the same options, resolving what was resolved changes nothing; only the unmatched are reported again. */
  lemma ResolvingTwiceIsOnce(
    schema: map<string, Def>, parameters: JsMap<Value>, host: Host, once: JsMap<Value>, twice: JsMap<Value>)
    requires ResolvedAll(schema, parameters, host, once) && ResolvedAll(schema, once, host, twice)
    ensures twice == once
  {
    forall key | key in once.at
      ensures twice.at[key] == once.at[key]
    {
      ResolvedStays(schema, key, parameters.at[key], host);
    }
    hide Resolved;
  }

  lemma {:induction false} OnlyUnmatchedAgain(
    schema: map<string, Def>, parameters: JsMap<Value>, host: Host, once: JsMap<Value>, n: nat)
    requires ResolvedAll(schema, parameters, host, once) && n <= |parameters.keys|
    ensures AllNotes(schema, once, n, host) == Unmatcheds(AllNotes(schema, parameters, n, host))
  {
    hide Resolved;
    if n > 0 {
      OnlyUnmatchedAgain(schema, parameters, host, once, n - 1);
      var key := parameters.keys[n - 1];
      if key in parameters.at {
        NotesAt(schema, parameters, n - 1, host);
        NotesAt(schema, once, n - 1, host);
        OneNoteAgain(schema, key, parameters.at[key], host);
        hide AllNotes, Unmatcheds;
        UnmatchedsConcat(AllNotes(schema, parameters, n - 1, host), Resolved(schema, key, parameters.at[key], host).1);
      } else {
        assert AllNotes(schema, parameters, n, host) == AllNotes(schema, parameters, n - 1, host);
        assert AllNotes(schema, once, n, host) == AllNotes(schema, once, n - 1, host);
      }
    }
  }

  lemma OneNoteAgain(schema: map<string, Def>, key: string, value: Value, host: Host)
    ensures var r := Resolved(schema, key, value, host);
      Resolved(schema, key, r.0, host).1 == Unmatcheds(r.1)
  {
    hide Resolved, Unmatcheds;
    ResolvedStays(schema, key, value, host);
    NotesOfOne(schema, key, value, host);
  }

  function Unmatcheds(notes: seq<Note>): seq<Note> {
    if notes == [] then []
    else Unmatcheds(notes[..|notes| - 1]) + (if notes[|notes| - 1].Unmatched? then [notes[|notes| - 1]] else [])
  }

  lemma {:induction false} UnmatchedsConcat(a: seq<Note>, b: seq<Note>)
    ensures Unmatcheds(a + b) == Unmatcheds(a) + Unmatcheds(b)
  {
    if b == [] {
      assert a + b == a;
    } else {
      UnmatchedsConcat(a, b[..|b| - 1]);
      assert (a + b)[..|a + b| - 1] == a + b[..|b| - 1];
    }
  }

  lemma NotesOfOne(schema: map<string, Def>, key: string, value: Value, host: Host)
    ensures var r := Resolved(schema, key, value, host);
      Unmatcheds(r.1) == if r.0 == value then r.1 else []
  {
    var r := Resolved(schema, key, value, host);
    RewrittenExactlyWhen(schema, key, value, host);
    hide OptionsFor, MatchedBy, HasReference;
    MatchFinds(OptionsFor(schema, key, host), Printed(value), host);
    hide MatchByLabel;
    assert |r.1| == 1 ==> r.1[..0] == [];
  }
}
