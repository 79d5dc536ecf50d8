/**
 * The CSV export of src/utils/download.js: field escaping as section 2 of RFC 4180 describes it, and the text
 * `exportAsCsv` builds (a header line and one line per saved track, joined by "\n"). Handing the text to the
 * browser as a download is not part of this model.
 */
module CsvExport {
  import opened Wrappers
  import opened Text
  import opened Library
  import Format

  /** Whether `escapeCSVField` quotes the value: it holds a comma, a double quote or a newline. */
  predicate NeedsQuoting(s: string) {
    ',' in s || '"' in s || '\n' in s
  }

  /** `s.replace(/"/g, '""')`. */
  function DoubleQuotes(s: string): (r: string)
    ensures |r| >= |s|
  {
    if s == [] then [] else (if s[0] == '"' then "\"\"" else [s[0]]) + DoubleQuotes(s[1..])
  }

  /** `escapeCSVField(value)`, with `None` for `null` and `undefined`. */
  function EscapeField(value: Option<string>): (r: string)
    ensures value.Some? ==> |r| >= |value.value|
    ensures value.Some? && NeedsQuoting(value.value) ==> |r| >= |value.value| + 2 && r[0] == '"' && r[|r| - 1] == '"'
  {
    if value.None? then ""
    else if NeedsQuoting(value.value) then "\"" + DoubleQuotes(value.value) + "\""
    else value.value
  }

  // A reader for the text, following section 2 of RFC 4180 with "\n" as the line break the export uses.

  /** The rest of a quoted field after its opening quote: `""` stands for `"` and a lone `"` closes the field.
      Gives the value and the text after the closing quote; `None` for an unterminated field. */
  function QuotedBody(s: string): (r: Option<(string, string)>)
    ensures r.Some? ==> |r.value.1| < |s|
    decreases |s|
  {
    if s == [] then None
    else if s[0] == '"' then
      if |s| >= 2 && s[1] == '"' then
        match QuotedBody(s[2..])
        case None => None
        case Some((v, rest)) => Some(("\"" + v, rest))
      else Some(("", s[1..]))
    else
      match QuotedBody(s[1..])
      case None => None
      case Some((v, rest)) => Some(([s[0]] + v, rest))
  }

  /** An unquoted field: everything up to the next comma or line break. */
  function Unquoted(s: string): (r: (string, string))
    ensures r.0 + r.1 == s
    decreases |s|
  {
    if s == [] || s[0] == ',' || s[0] == '\n' then ("", s)
    else
      var (v, rest) := Unquoted(s[1..]);
      ([s[0]] + v, rest)
  }

  /** One field at the start of `s`, with the text after it. */
  function ParseField(s: string): (r: Option<(string, string)>)
    ensures r.Some? ==> |r.value.1| <= |s|
  {
    if s != [] && s[0] == '"' then QuotedBody(s[1..]) else Some(Unquoted(s))
  }

  /** The fields of one record at the start of `s`, with the text from the line break on. */
  function ParseRecord(s: string): (r: Option<(seq<string>, string)>)
    ensures r.Some? ==> |r.value.1| <= |s|
    decreases |s|
  {
    match ParseField(s)
    case None => None
    case Some((f, rest)) =>
      if rest == [] || rest[0] == '\n' then Some(([f], rest))
      else if rest[0] == ',' then
        match ParseRecord(rest[1..])
        case None => None
        case Some((fs, after)) => Some(([f] + fs, after))
      else None
  }

  /** All records of a text. */
  function ParseCsv(s: string): Option<seq<seq<string>>>
    decreases |s|
  {
    match ParseRecord(s)
    case None => None
    case Some((fs, rest)) =>
      if rest == [] then Some([fs])
      else
        match ParseCsv(rest[1..])
        case None => None
        case Some(rs) => Some([fs] + rs)
  }

  /** What may follow a field: nothing, a comma or a line break. */
  predicate FieldEnd(rest: string) {
    rest == [] || rest[0] == ',' || rest[0] == '\n'
  }

  lemma {:induction false} QuotedBodyRoundTrip(v: string, rest: string)
    requires FieldEnd(rest)
    ensures QuotedBody(DoubleQuotes(v) + "\"" + rest) == Some((v, rest))
    decreases |v|
  {
    var s := DoubleQuotes(v) + "\"" + rest;
    if v == [] {
      assert s == "\"" + rest;
      assert s[1..] == rest;
    } else {
      assert DoubleQuotes(v) == (if v[0] == '"' then "\"\"" else [v[0]]) + DoubleQuotes(v[1..]);
      QuotedBodyRoundTrip(v[1..], rest);
      if v[0] == '"' {
        assert s[2..] == DoubleQuotes(v[1..]) + "\"" + rest;
        assert "\"" + v[1..] == v;
      } else {
        assert s[1..] == DoubleQuotes(v[1..]) + "\"" + rest;
        assert [v[0]] + v[1..] == v;
      }
    }
  }

  lemma {:induction false} UnquotedRoundTrip(v: string, rest: string)
    requires ',' !in v && '\n' !in v && FieldEnd(rest)
    ensures Unquoted(v + rest) == (v, rest)
    decreases |v|
  {
    if v == [] {
      assert v + rest == rest;
    } else {
      assert (v + rest)[0] == v[0] && (v + rest)[1..] == v[1..] + rest;
      UnquotedRoundTrip(v[1..], rest);
      assert [v[0]] + v[1..] == v;
    }
  }

  /** Unescaping an escaped field gives back the value, whatever follows the field. */
  lemma FieldRoundTrip(v: string, rest: string)
    requires FieldEnd(rest)
    ensures ParseField(EscapeField(Some(v)) + rest) == Some((v, rest))
  {
    if NeedsQuoting(v) {
      QuotedFieldRoundTrip(v, rest);
    } else {
      PlainFieldRoundTrip(v, rest);
    }
  }

  lemma QuotedFieldRoundTrip(v: string, rest: string)
    requires FieldEnd(rest) && NeedsQuoting(v)
    ensures ParseField(EscapeField(Some(v)) + rest) == Some((v, rest))
  {
    var s := "\"" + (DoubleQuotes(v) + "\"" + rest);
    assert EscapeField(Some(v)) + rest == s;
    assert s[0] == '"' && s[1..] == DoubleQuotes(v) + "\"" + rest;
    QuotedBodyRoundTrip(v, rest);
  }

  lemma PlainFieldRoundTrip(v: string, rest: string)
    requires FieldEnd(rest) && !NeedsQuoting(v)
    ensures ParseField(EscapeField(Some(v)) + rest) == Some((v, rest))
  {
    assert EscapeField(Some(v)) == v;
    UnquotedRoundTrip(v, rest);
    if v == [] {
      assert v + rest == rest;
    } else {
      assert (v + rest)[0] == v[0] && v[0] in v;
    }
  }

  /** One line of a CSV text: the escaped values joined by commas. */
  function Line(values: seq<string>): string {
    Join(",", seq(|values|, i requires 0 <= i < |values| => EscapeField(Some(values[i]))))
  }

  lemma LineCons(values: seq<string>, rest: string)
    requires |values| >= 2
    ensures Line(values) + rest == EscapeField(Some(values[0])) + ("," + (Line(values[1..]) + rest))
  {
    var escaped := seq(|values|, i requires 0 <= i < |values| => EscapeField(Some(values[i])));
    assert escaped[1..] == seq(|values| - 1, i requires 0 <= i < |values| - 1 => EscapeField(Some(values[1..][i])));
    assert Line(values) == EscapeField(Some(values[0])) + "," + Line(values[1..]);
  }

  lemma {:induction false} RecordRoundTrip(values: seq<string>, rest: string)
    requires |values| >= 1 && (rest == [] || rest[0] == '\n')
    ensures ParseRecord(Line(values) + rest) == Some((values, rest))
    decreases |values|
  {
    if |values| == 1 {
      SingleRecordRoundTrip(values, rest);
    } else {
      RecordRoundTrip(values[1..], rest);
      RecordStep(values, rest);
    }
  }

  lemma SingleRecordRoundTrip(values: seq<string>, rest: string)
    requires |values| == 1 && (rest == [] || rest[0] == '\n')
    ensures ParseRecord(Line(values) + rest) == Some((values, rest))
  {
    assert Line(values) == EscapeField(Some(values[0]));
    FieldRoundTrip(values[0], rest);
    assert [values[0]] == values;
  }

  /** A record of several values reads back when the record of all but its first value does. */
  lemma RecordStep(values: seq<string>, rest: string)
    requires |values| >= 2 && ParseRecord(Line(values[1..]) + rest) == Some((values[1..], rest))
    ensures ParseRecord(Line(values) + rest) == Some((values, rest))
  {
    LineCons(values, rest);
    assert [values[0]] + values[1..] == values;
    ParseRecordCons(Line(values) + rest, values[0], Line(values[1..]) + rest, values[1..], rest);
  }

  /** A field and a comma in front of a record add the field to the front of that record. */
  lemma ParseRecordCons(s: string, v: string, tail: string, fs: seq<string>, after: string)
    requires s == EscapeField(Some(v)) + ("," + tail) && ParseRecord(tail) == Some((fs, after))
    ensures ParseRecord(s) == Some(([v] + fs, after))
  {
    FieldRoundTrip(v, "," + tail);
    assert ("," + tail)[1..] == tail;
  }

  /** The text of several lines joined by "\n". */
  function Document(rows: seq<seq<string>>): string {
    Join("\n", seq(|rows|, i requires 0 <= i < |rows| => Line(rows[i])))
  }

  /** The document of rows whose lines are `lines`. */
  lemma DocumentOfLines(rows: seq<seq<string>>, lines: seq<string>)
    requires |rows| == |lines| && forall i :: 0 <= i < |rows| ==> Line(rows[i]) == lines[i]
    ensures Document(rows) == Join("\n", lines)
  {
    assert seq(|rows|, i requires 0 <= i < |rows| => Line(rows[i])) == lines;
  }

  /** Reading the text of non-empty rows gives back the rows, so every value survives escaping, whatever
      commas, quotes and line breaks it holds. */
  lemma {:induction false} CsvRoundTrip(rows: seq<seq<string>>)
    requires |rows| >= 1 && forall i :: 0 <= i < |rows| ==> |rows[i]| >= 1
    ensures ParseCsv(Document(rows)) == Some(rows)
    decreases |rows|
  {
    var lines := seq(|rows|, i requires 0 <= i < |rows| => Line(rows[i]));
    if |rows| == 1 {
      assert Document(rows) == Line(rows[0]);
      assert Line(rows[0]) + [] == Line(rows[0]);
      RecordRoundTrip(rows[0], []);
      assert [rows[0]] == rows;
    } else {
      var tail := Document(rows[1..]);
      assert Document(rows) == Line(rows[0]) + ("\n" + tail) by {
        assert lines[1..] == seq(|rows| - 1, i requires 0 <= i < |rows| - 1 => Line(rows[1..][i]));
      }
      CsvRoundTrip(rows[1..]);
      ParseCsvCons(rows[0], tail, rows[1..]);
      assert [rows[0]] + rows[1..] == rows;
    }
  }

  /** A line and a line break in front of a text add the line's record to the front of that text's records. */
  lemma ParseCsvCons(values: seq<string>, tail: string, rows: seq<seq<string>>)
    requires |values| >= 1 && ParseCsv(tail) == Some(rows)
    ensures ParseCsv(Line(values) + ("\n" + tail)) == Some([values] + rows)
  {
    RecordRoundTrip(values, "\n" + tail);
    assert ("\n" + tail)[1..] == tail;
  }

  /** A value without commas, quotes or line breaks is written as is. */
  lemma PlainUnchanged(v: string)
    requires !NeedsQuoting(v)
    ensures EscapeField(Some(v)) == v
  {
  }

  const Header: seq<string> := ["#", "Title", "Artist", "Album", "Added At", "Duration"]

  /** The header names six columns, the fourth "Album" and the fifth "Added At". */
  lemma HeaderColumns()
    ensures |Header| == 6 && Header[3] == "Album" && Header[4] == "Added At"
  {
  }

  /** The values of the CSV line of the `k`-th track (counted from 0). */
  function RowValues(k: nat, item: SavedTrack): seq<string> {
    [NatToString(k + 1), item.track.name, Join("; ", item.track.artists), item.track.albumName, item.addedAt,
     Format.FormatDuration(item.track.durationMs)]
  }

  /** The line `exportAsCsv` writes for the `k`-th track: `added_at` and the duration are not escaped. */
  function Row(k: nat, item: SavedTrack): string {
    Join(",", [NatToString(k + 1), EscapeField(Some(item.track.name)), EscapeField(Some(Join("; ", item.track.artists))),
               EscapeField(Some(item.track.albumName)), item.addedAt, Format.FormatDuration(item.track.durationMs)])
  }

  /** The text `exportAsCsv(tracks)` hands to the download. */
  function ExportCsv(tracks: seq<SavedTrack>): (r: string)
    ensures Join(",", Header) <= r
    ensures tracks == [] ==> r == Join(",", Header)
  {
    Join("\n", [Join(",", Header)] + seq(|tracks|, k requires 0 <= k < |tracks| => Row(k, tracks[k])))
  }

  lemma DigitsArePlain(s: string)
    requires AllDigits(s)
    ensures !NeedsQuoting(s)
  {
    forall i | 0 <= i < |s| ensures s[i] != ',' && s[i] != '"' && s[i] != '\n' {
      assert IsDigit(s[i]);
    }
  }

  lemma NumbersArePlain(k: nat, ms: nat)
    ensures !NeedsQuoting(NatToString(k)) && !NeedsQuoting(Format.FormatDuration(ms))
  {
    DigitsArePlain(NatToString(k));
    var t := ms / 1000;
    var m, sec := Format.TwoDigits(t / 60), Format.TwoDigits(t % 60);
    DigitsArePlain(m);
    DigitsArePlain(sec);
    assert Format.FormatDuration(ms) == m + ":" + sec;
  }

  lemma RowIsLine(k: nat, item: SavedTrack)
    requires !NeedsQuoting(item.addedAt)
    ensures Row(k, item) == Line(RowValues(k, item))
  {
    NumbersArePlain(k + 1, item.track.durationMs);
    var vs := RowValues(k, item);
    var escaped := seq(|vs|, i requires 0 <= i < |vs| => EscapeField(Some(vs[i])));
    var written := [NatToString(k + 1), EscapeField(Some(item.track.name)),
                    EscapeField(Some(Join("; ", item.track.artists))), EscapeField(Some(item.track.albumName)),
                    item.addedAt, Format.FormatDuration(item.track.durationMs)];
    forall i | 0 <= i < 6 ensures escaped[i] == written[i] {
      if i == 0 || i == 4 || i == 5 {
        PlainUnchanged(vs[i]);
      }
    }
    assert escaped == written;
  }

  lemma HeaderIsLine()
    ensures Line(Header) == Join(",", Header)
  {
    forall i | 0 <= i < |Header| ensures !NeedsQuoting(Header[i]) {
      var h := Header[i];
      forall j | 0 <= j < |h| ensures h[j] != ',' && h[j] != '"' && h[j] != '\n' {
      }
    }
    assert seq(|Header|, i requires 0 <= i < |Header| => EscapeField(Some(Header[i]))) == Header;
  }

  /** The values of the header and of each track's line. */
  function ExportRows(tracks: seq<SavedTrack>): seq<seq<string>> {
    [Header] + seq(|tracks|, k requires 0 <= k < |tracks| => RowValues(k, tracks[k]))
  }

  /** With `added_at` plain, the export is the CSV document of its rows. */
  lemma ExportIsDocument(tracks: seq<SavedTrack>)
    requires forall k :: 0 <= k < |tracks| ==> !NeedsQuoting(tracks[k].addedAt)
    ensures ExportCsv(tracks) == Document(ExportRows(tracks))
  {
    var rows := ExportRows(tracks);
    var exported := [Join(",", Header)] + seq(|tracks|, k requires 0 <= k < |tracks| => Row(k, tracks[k]));
    assert ExportCsv(tracks) == Join("\n", exported);
    forall i | 0 <= i < |rows| ensures Line(rows[i]) == exported[i] {
      if i == 0 {
        HeaderIsLine();
      } else {
        RowIsLine(i - 1, tracks[i - 1]);
      }
    }
    DocumentOfLines(rows, exported);
  }

  /**
   * The export reads back as a header of six columns and, for each track in order, a line of six values: its
   * position counted from 1, title, artists joined by "; ", album, `added_at` and `MM:SS` duration. This holds
   * when `added_at` has no comma, quote or line break, as an ISO 8601 timestamp has none; the other values may
   * hold anything.
   */
  lemma ExportReadsBack(tracks: seq<SavedTrack>)
    requires forall k :: 0 <= k < |tracks| ==> !NeedsQuoting(tracks[k].addedAt)
    ensures ParseCsv(ExportCsv(tracks))
         == Some([Header] + seq(|tracks|, k requires 0 <= k < |tracks| => RowValues(k, tracks[k])))
  {
    var rows := ExportRows(tracks);
    ExportIsDocument(tracks);
    assert forall i :: 0 <= i < |rows| ==> |rows[i]| == 6;
    CsvRoundTrip(rows);
  }
}
