/** The output formatters: table rows, readable summaries, the formatter
    that picks one of several by preference, and the standard success and
    error responses. Timestamps are not modelled. */
module Formatters {
  import opened Base

  // ---------------------------------------------------------------------
  // Dictionary assignment
  // ---------------------------------------------------------------------

  /** d[k] = v on an ordered mapping: an existing key keeps its place and
      takes the new value; a new key goes last. */
  function Put<V>(d: seq<(string, V)>, k: string, v: V): (r: seq<(string, V)>)
    ensures |r| == |d| || r == d + [(k, v)]
  {
    if d == [] then [(k, v)]
    else if d[0].0 == k then [(k, v)] + d[1..]
    else [d[0]] + Put(d[1..], k, v)
  }

  predicate IsKey<V>(d: seq<(string, V)>, k: string)
  {
    exists i :: 0 <= i < |d| && d[i].0 == k
  }

  /** After d[k] = v, d[k] is v, every other key reads as before, and the
      keys are the old ones plus k. */
  lemma {:induction false} PutGet(d: Dict, k: string, v: Value)
    ensures Get(Put(d, k, v), k) == Some(v)
    ensures forall k' :: k' != k ==> Get(Put(d, k, v), k') == Get(d, k')
  {
    if d != [] && d[0].0 != k {
      PutGet(d[1..], k, v);
    }
  }

  /** A key of a non-empty mapping is its first key or a key of the rest. */
  lemma IsKeyCons<V>(d: seq<(string, V)>, k: string)
    requires d != []
    ensures IsKey(d, k) <==> d[0].0 == k || IsKey(d[1..], k)
  {
    if IsKey(d, k) && d[0].0 != k {
      var i :| 0 <= i < |d| && d[i].0 == k;
      assert d[1..][i - 1].0 == k;
    }
    if IsKey(d[1..], k) {
      var i :| 0 <= i < |d[1..]| && d[1..][i].0 == k;
      assert d[i + 1].0 == k;
    }
  }

  lemma {:induction false} PutKeys<V>(d: seq<(string, V)>, k: string, v: V, k': string)
    ensures IsKey(Put(d, k, v), k') <==> IsKey(d, k') || k' == k
  {
    var r := Put(d, k, v);
    assert r[0].0 == k || r[0] == d[0];
    IsKeyCons(r, k');
    if d != [] {
      IsKeyCons(d, k');
      if d[0].0 != k {
        PutKeys(d[1..], k, v, k');
        assert r[1..] == Put(d[1..], k, v);
      } else {
        assert r[1..] == d[1..];
      }
    }
  }

  /** The value under the first occurrence of k. */
  function Lookup<V>(d: seq<(string, V)>, k: string): (r: Option<V>)
    ensures r.Some? <==> IsKey(d, k)
  {
    if d == [] then None
    else if d[0].0 == k then Some(d[0].1)
    else
      var r := Lookup(d[1..], k);
      assert IsKey(d[1..], k) ==> IsKey(d, k) by {
        if IsKey(d[1..], k) {
          var i :| 0 <= i < |d[1..]| && d[1..][i].0 == k;
          assert d[i + 1].0 == k;
        }
      }
      assert IsKey(d, k) ==> IsKey(d[1..], k) by {
        if IsKey(d, k) {
          var i :| 0 <= i < |d| && d[i].0 == k;
          assert d[1..][i - 1].0 == k;
        }
      }
      r
  }

  // ---------------------------------------------------------------------
  // TableFormatter
  // ---------------------------------------------------------------------

  function Dashes(header: string): string { Repeat('-', |header|) }

  /** _convert_to_table_rows: nothing for an empty dict, otherwise a header
      row, a row of dashes under it and a row of values, each joined by the
      column separator; `show` is str(). */
  function TableRows(separator: string, data: Dict, show: Value -> string): (rows: seq<string>)
    ensures rows == [] <==> data == []
    ensures data != [] ==> |rows| == 3 && rows[0] == Join(separator, Keys(data))
  {
    if data == [] then []
    else
      var headers := Keys(data);
      [Join(separator, headers),
       Join(separator, Map(Dashes, headers)),
       Join(separator, Map((e: (string, Value)) => show(e.1), data))]
  }

  /** Joining parts of equal lengths gives texts of equal length. */
  lemma {:induction false} JoinSameLengths(sep: string, a: seq<string>, b: seq<string>)
    requires |a| == |b|
    requires forall i :: 0 <= i < |a| ==> |a[i]| == |b[i]|
    ensures |Join(sep, a)| == |Join(sep, b)|
  {
    if |a| > 1 {
      JoinSameLengths(sep, a[1..], b[1..]);
    }
  }

  /** The separator row lines up with the header row: cell i is as many
      dashes as header i has characters, so the two rows are equally long. */
  lemma SeparatorUnderHeader(separator: string, data: Dict, show: Value -> string)
    requires data != []
    ensures var rows := TableRows(separator, data, show);
            |rows[1]| == |rows[0]|
            && forall i :: 0 <= i < |data| ==> Map(Dashes, Keys(data))[i] == Repeat('-', |data[i].0|)
  {
    var headers := Keys(data);
    var dashes := Map(Dashes, headers);
    forall i | 0 <= i < |headers| ensures dashes[i] == Repeat('-', |headers[i]|) {
      MapAt(Dashes, headers, i);
    }
    JoinSameLengths(separator, dashes, headers);
  }

  /** str(data[key]) */
  function CellOf(data: Dict, show: Value -> string): string -> string
  {
    (key: string) => match Get(data, key) case Some(v) => show(v) case None => ""
  }

  /** The value row holds str(data[key]) for each key, in header order
      (a dict holds each key once). */
  lemma ValueRowUnderHeader(separator: string, data: Dict, show: Value -> string)
    requires data != []
    requires forall i, j :: 0 <= i < j < |data| ==> data[i].0 != data[j].0
    ensures TableRows(separator, data, show)[2] == Join(separator, Map(CellOf(data, show), Keys(data)))
  {
    var headers := Keys(data);
    var byEntry := Map((e: (string, Value)) => show(e.1), data);
    var byKey := Map(CellOf(data, show), headers);
    forall i | 0 <= i < |data| ensures byEntry[i] == byKey[i] {
      MapAt((e: (string, Value)) => show(e.1), data, i);
      MapAt(CellOf(data, show), headers, i);
      GetFirst(data, data[i].0, i);
    }
    assert byEntry == byKey;
  }

  // ---------------------------------------------------------------------
  // SummaryFormatter
  // ---------------------------------------------------------------------

  /** key.replace('_', ' ') */
  function Spaced(key: string): (r: string)
    ensures |r| == |key|
    ensures forall i :: 0 <= i < |key| ==> r[i] == if key[i] == '_' then ' ' else key[i]
  {
    seq(|key|, i requires 0 <= i < |key| => if key[i] == '_' then ' ' else key[i])
  }

  /** str.title(): a letter right after a letter is lower-cased, any other
      letter is upper-cased; other characters are kept. */
  function Title(s: string): (r: string)
    ensures |r| == |s|
    ensures forall i :: 0 <= i < |s| ==> (IsLetter(r[i]) <==> IsLetter(s[i]))
    ensures forall i :: 0 <= i < |s| && !IsLetter(s[i]) ==> r[i] == s[i]
  {
    seq(|s|, i requires 0 <= i < |s| => if i > 0 && IsLetter(s[i - 1]) then LowerChar(s[i]) else UpperChar(s[i]))
  }

  /** Title-casing twice is title-casing once. */
  lemma TitleIdempotent(s: string)
    ensures Title(Title(s)) == Title(s)
  {
    var t := Title(s);
    forall i | 0 <= i < |s| ensures Title(t)[i] == t[i] {
      if i > 0 && IsLetter(s[i - 1]) {
        assert IsLetter(t[i - 1]);
      } else if i > 0 {
        assert !IsLetter(t[i - 1]);
      }
    }
  }

  function Label(key: string): string { Title(Spaced(key)) }

  function SubLine(show: Value -> string): ((string, Value)) -> string
  {
    (e: (string, Value)) => "  - " + Label(e.0) + ": " + show(e.1)
  }

  /** The lines of one entry: a nested dict gets a header line and one line
      per sub-key; anything else one "Key: value" line. */
  function EntryLines(show: Value -> string, e: (string, Value)): seq<string>
  {
    if e.1.VDict? then [Label(e.0) + ":"] + Map(SubLine(show), e.1.entries)
    else [Label(e.0) + ": " + show(e.1)]
  }

  function EntryLinesOf(show: Value -> string): ((string, Value)) -> seq<string>
  {
    (e: (string, Value)) => EntryLines(show, e)
  }

  function SummaryLines(data: Dict, show: Value -> string): seq<string>
  {
    FlatMap(EntryLinesOf(show), data)
  }

  /** How many lines a summary of `data` has, counted entry by entry. */
  function LineCount(data: Dict): nat
  {
    if data == [] then 0
    else
      var e := data[|data| - 1];
      LineCount(data[..|data| - 1]) + (if e.1.VDict? then 1 + |e.1.entries| else 1)
  }

  /** One line per plain entry; a nested dict's header line plus one line
      per sub-key. */
  lemma {:induction false} SummaryLineCount(data: Dict, show: Value -> string)
    ensures |SummaryLines(data, show)| == LineCount(data)
  {
    if data != [] {
      SummaryLineCount(data[..|data| - 1], show);
    }
  }

  /** _generate_summary: the lines of every entry, in order, joined by
      newlines. */
  method GenerateSummary(data: Dict, show: Value -> string) returns (text: string)
    ensures text == Join("\n", SummaryLines(data, show))
  {
    var f := EntryLinesOf(show);
    var lines: seq<string> := [];
    for i := 0 to |data|
      invariant lines == FlatMap(f, data[..i])
    {
      var (key, value) := data[i];
      if value.VDict? {
        var sub := SubLine(show);
        var entryLines := [Label(key) + ":"];
        for j := 0 to |value.entries|
          invariant entryLines == [Label(key) + ":"] + Map(sub, value.entries[..j])
        {
          MapStep(sub, value.entries, j);
          entryLines := entryLines + [sub(value.entries[j])];
        }
        assert value.entries[..|value.entries|] == value.entries;
        lines := lines + entryLines;
      } else {
        lines := lines + [Label(key) + ": " + show(value)];
      }
      FlatMapStep(f, data, i);
    }
    assert data[..|data|] == data;
    text := Join("\n", lines);
  }

  // ---------------------------------------------------------------------
  // MultiFormatFormatter
  // ---------------------------------------------------------------------

  /** The formatters: JSON (json.dumps is `dumps`), table (with its column
      separator), summary, or one added from outside, given by its formats
      and its output. */
  datatype Formatter =
    | Json(indent: int)
    | Table(columnSeparator: string)
    | Summary
    | Custom(formats: seq<string>, render: Dict -> Dict)

  /** get_supported_formats of one formatter */
  function FormatsOf(f: Formatter): seq<string>
  {
    match f
    case Json(_) => ["json"]
    case Table(_) => ["table", "text"]
    case Summary => ["summary", "text"]
    case Custom(formats, _) => formats
  }

  function TextResult(formatted: Value, contentType: string, formatType: string): Dict
  {
    [("formatted_data", formatted), ("content_type", VStr(contentType)), ("format_type", VStr(formatType))]
  }

  /** format_output of one formatter. */
  function FormatWith(f: Formatter, data: Dict, show: Value -> string, dumps: Dict -> Result<string, string>): Dict
  {
    match f
    case Json(_) =>
      (match dumps(data)
       case Ok(text) => TextResult(VStr(text), "application/json", "json")
       case Err(e) => TextResult(VNone, "application/json", "json") + [("error", VStr("JSON formatting error: " + e))])
    case Table(sep) =>
      TextResult(VList(Map((row: string) => VStr(row), TableRows(sep, data, show))), "text/plain", "table")
    case Summary =>
      TextResult(VStr(Join("\n", SummaryLines(data, show))), "text/plain", "summary")
    case Custom(_, render) => render(data)
  }

  /** The formats once each, in order of first mention. */
  function Dedup(xs: seq<string>): (r: seq<string>)
    ensures forall x :: x in r <==> x in xs
    ensures forall i, j :: 0 <= i < j < |r| ==> r[i] != r[j]
  {
    if xs == [] then []
    else
      var init, x := xs[..|xs| - 1], xs[|xs| - 1];
      assert xs == init + [x];
      var r := Dedup(init);
      if x in r then r else r + [x]
  }

  function FormatsOfEntry(e: (string, Formatter)): seq<string> { FormatsOf(e.1) }

  /** Every format of every formatter, in order, repeats included. */
  function AllFormats(fs: seq<(string, Formatter)>): seq<string>
  {
    FlatMap(FormatsOfEntry, fs)
  }

  /** A format is supported exactly when some formatter lists it. */
  lemma {:induction false} AllFormatsMembers(fs: seq<(string, Formatter)>, x: string)
    ensures x in AllFormats(fs) <==> exists i :: 0 <= i < |fs| && x in FormatsOf(fs[i].1)
  {
    if fs != [] {
      var init := fs[..|fs| - 1];
      AllFormatsMembers(init, x);
      assert forall i :: 0 <= i < |init| ==> init[i] == fs[i];
      if x in FormatsOf(fs[|fs| - 1].1) {
        assert x in AllFormats(fs);
      }
    }
  }

  /** The preference, if any, can be looked up in a dict: it is not a list
      or a dict. */
  predicate HashablePreference(data: Dict)
  {
    match Get(data, "format_preference")
    case None => true
    case Some(v) => !v.VList? && !v.VDict?
  }

  /** How the format is chosen: the 'format_preference' entry when it names
      a formatter, otherwise the default; a default that names none is a
      KeyError, and a list or dict preference cannot be looked up at all. */
  function Selected(fs: seq<(string, Formatter)>, default: string, data: Dict): (r: Result<string, string>)
    ensures r.Ok? ==> IsKey(fs, r.value)
    ensures r.Ok? ==> r.value == default || Get(data, "format_preference") == Some(VStr(r.value))
    ensures HashablePreference(data) && IsKey(fs, default) ==> r.Ok?
    ensures (exists p :: Get(data, "format_preference") == Some(VStr(p)) && IsKey(fs, p))
            ==> r == Ok(Get(data, "format_preference").value.s)
  {
    var chosen :=
      match Get(data, "format_preference")
      case None => Ok(default)
      case Some(v) =>
        if v.VList? || v.VDict? then Err("TypeError: unhashable type")
        else if v.VStr? && IsKey(fs, v.s) then Ok(v.s)
        else Ok(default);
    if chosen.Err? then chosen
    else if IsKey(fs, chosen.value) then chosen
    else Err("KeyError: " + default)
  }

  /** result['available_formats'] and result['selected_format'] */
  function Decorate(result: Dict, formats: seq<string>, name: string): Dict
  {
    Put(Put(result, "available_formats", VList(Map((s: string) => VStr(s), formats))), "selected_format", VStr(name))
  }

  /** The answer names the format actually used. */
  lemma DecorateNamesFormat(result: Dict, formats: seq<string>, name: string)
    ensures Get(Decorate(result, formats, name), "selected_format") == Some(VStr(name))
    ensures forall k :: k != "selected_format" && k != "available_formats" ==>
              Get(Decorate(result, formats, name), k) == Get(result, k)
  {
    var once := Put(result, "available_formats", VList(Map((s: string) => VStr(s), formats)));
    PutGet(result, "available_formats", VList(Map((s: string) => VStr(s), formats)));
    PutGet(once, "selected_format", VStr(name));
  }

  /** The formatters a MultiFormatFormatter starts with. */
  function StandardFormatters(): seq<(string, Formatter)>
  {
    [("json", Json(2)), ("table", Table(" | ")), ("summary", Summary)]
  }

  /** set_default_format as written: accepts any supported format, which
      includes "text", a format no formatter is registered under. */
  function NewDefaultAsWritten(fs: seq<(string, Formatter)>, current: string, format: string): string
  {
    if format in AllFormats(fs) then format else current
  }

  /** set_default_format as intended: only a registered formatter becomes
      the default, so the fallback lookup always succeeds. */
  function NewDefault(fs: seq<(string, Formatter)>, current: string, format: string): (r: string)
    ensures IsKey(fs, current) ==> IsKey(fs, r)
    ensures IsKey(fs, format) ==> r == format
    ensures !IsKey(fs, format) ==> r == current
  {
    if IsKey(fs, format) then format else current
  }

  /** On the standard formatters, "text" is accepted as the default and a
      request without preference then fails its lookup. */
  lemma TextDefaultBreaksFallback()
    ensures NewDefaultAsWritten(StandardFormatters(), "json", "text") == "text"
    ensures Selected(StandardFormatters(), "text", []).Err?
  {
    var fs := StandardFormatters();
    assert fs[..0] == [];
    FlatMapStep(FormatsOfEntry, fs, 0);
    FlatMapStep(FormatsOfEntry, fs, 1);
    assert fs[..2] == fs[..1] + [fs[1]];
    assert "text" in FormatsOf(fs[1].1);
    assert "text" in AllFormats(fs[..2]);
    FlatMapStep(FormatsOfEntry, fs, 2);
    assert fs[..3] == fs;
    assert !IsKey(fs, "text") by {
      forall i | 0 <= i < |fs| ensures fs[i].0 != "text" {
        assert fs[i].0 == ["json", "table", "summary"][i];
      }
    }
  }

  /** With the corrected default, a request whose preference is text, a
      number, a bool or absent is always formatted. */
  lemma CorrectedFallbackSucceeds(fs: seq<(string, Formatter)>, current: string, format: string, data: Dict)
    requires IsKey(fs, current)
    requires HashablePreference(data)
    ensures Selected(fs, NewDefault(fs, current, format), data).Ok?
  {
  }

  class MultiFormatFormatter {
    var formatters: seq<(string, Formatter)>
    var defaultFormat: string

    /** The default names a registered formatter. */
    ghost predicate Valid()
      reads this
    {
      IsKey(formatters, defaultFormat)
    }

    constructor ()
      ensures formatters == StandardFormatters() && defaultFormat == "json"
      ensures Valid()
    {
      formatters := StandardFormatters();
      defaultFormat := "json";
      assert StandardFormatters()[0].0 == "json";
    }

    /** get_supported_formats: the formats of every formatter, each once. */
    method GetSupportedFormats() returns (formats: seq<string>)
      ensures formats == Dedup(AllFormats(formatters))
      ensures forall x :: x in formats <==> exists i :: 0 <= i < |formatters| && x in FormatsOf(formatters[i].1)
      ensures forall i, j :: 0 <= i < j < |formats| ==> formats[i] != formats[j]
    {
      var all: seq<string> := [];
      for i := 0 to |formatters|
        invariant all == FlatMap(FormatsOfEntry, formatters[..i])
      {
        all := all + FormatsOf(formatters[i].1);
        FlatMapStep(FormatsOfEntry, formatters, i);
      }
      assert formatters[..|formatters|] == formatters;
      formats := Dedup(all);
      forall x ensures x in formats <==> exists i :: 0 <= i < |formatters| && x in FormatsOf(formatters[i].1) {
        AllFormatsMembers(formatters, x);
      }
    }

    /** format_output: formats with the selected formatter and records the
        supported formats and the format used. */
    method FormatOutput(data: Dict, show: Value -> string, dumps: Dict -> Result<string, string>)
      returns (r: Result<Dict, string>)
      ensures Selected(formatters, defaultFormat, data).Err? ==> r == Err(Selected(formatters, defaultFormat, data).error)
      ensures Selected(formatters, defaultFormat, data).Ok? ==>
                var name := Selected(formatters, defaultFormat, data).value;
                r.Ok? && IsKey(formatters, name)
                && r.value == Decorate(FormatWith(Lookup(formatters, name).value, data, show, dumps),
                                       Dedup(AllFormats(formatters)), name)
      ensures Valid() && r.Err? ==> !HashablePreference(data)
    {
      var selected := Selected(formatters, defaultFormat, data);
      if selected.Err? {
        return Err(selected.error);
      }
      var formatter := Lookup(formatters, selected.value).value;
      var result := FormatWith(formatter, data, show, dumps);
      var formats := GetSupportedFormats();
      r := Ok(Decorate(result, formats, selected.value));
    }

    /** add_formatter: registers or replaces the formatter under `name`. */
    method AddFormatter(name: string, f: Formatter)
      requires Valid()
      modifies this
      ensures formatters == Put(old(formatters), name, f) && defaultFormat == old(defaultFormat)
      ensures Valid()
    {
      PutKeys(formatters, name, f, defaultFormat);
      formatters := Put(formatters, name, f);
    }

    /** set_default_format, with the check on registered formatters rather
        than on supported formats. */
    method SetDefaultFormat(format: string)
      requires Valid()
      modifies this
      ensures formatters == old(formatters)
      ensures defaultFormat == NewDefault(formatters, old(defaultFormat), format)
      ensures Valid()
    {
      if Lookup(formatters, format).Some? {
        defaultFormat := format;
      }
    }
  }

  // ---------------------------------------------------------------------
  // FormatterUtility
  // ---------------------------------------------------------------------

  const GeneralError := "GENERAL_ERROR"
  const DefaultSuccessMessage := "Operation completed successfully"

  /** error_code or 'GENERAL_ERROR' */
  function ErrorCode(code: Option<string>): (r: string)
    ensures code.None? || code.value == "" ==> r == GeneralError
    ensures code.Some? && code.value != "" ==> r == code.value
  {
    if code.Some? && code.value != "" then code.value else GeneralError
  }

  /** format_error_response: unsuccessful, no data, the message and the
      code under 'error'. */
  function ErrorResponse(message: string, code: Option<string>): (r: Dict)
    ensures Get(r, "success") == Some(VBool(false))
    ensures Get(r, "data") == Some(VNone)
    ensures Get(r, "error") == Some(VDict([("message", VStr(message)), ("code", VStr(ErrorCode(code)))]))
  {
    var r := [("success", VBool(false)),
              ("error", VDict([("message", VStr(message)), ("code", VStr(ErrorCode(code)))])),
              ("data", VNone)];
    assert r[0].0 != "data" && r[1].0 != "data" && r[1..][1..] == [("data", VNone)];
    assert Get(r[1..][1..], "data") == Some(VNone);
    assert Get(r[1..], "data") == Some(VNone);
    r
  }

  /** format_success_response: successful, the message, and the data as
      given. */
  function SuccessResponse(data: Value, message: string): (r: Dict)
    ensures Get(r, "success") == Some(VBool(true))
    ensures Get(r, "message") == Some(VStr(message))
    ensures Get(r, "data") == Some(data)
  {
    var r := [("success", VBool(true)), ("message", VStr(message)), ("data", data)];
    assert r[0].0 != "data" && r[1].0 != "data" && r[1..][1..] == [("data", data)];
    assert Get(r[1..][1..], "data") == Some(data);
    assert Get(r[1..], "data") == Some(data);
    r
  }
}
