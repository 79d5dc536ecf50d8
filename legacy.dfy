/**
 * The earlier sync and export code of src/Utils.js: `get_saved_tracks`, which requests every page at once with no
 * retry, and `export_data_csv`, which writes its rows without escaping. The responses of the requests are inputs;
 * the `MM:SS` text of a duration, computed there in floating point, is an input function `readable`.
 */
module LegacyUtils {
  import opened Wrappers
  import opened Text
  import opened Library
  import SpotifyApi
  import CsvExport

  /** The page size the legacy loop steps by. */
  const PageStep: nat := 50

  /** How many pages `for (offset = 0; offset <= total; offset += 50)` requests. An undefined `total` (the count
      request failed) compares false, as does any offset with a negative `total`. */
  function LegacyPageCount(total: Option<int>): nat {
    if total.None? || total.value < 0 then 0 else total.value / PageStep + 1
  }

  /** The offsets the legacy loop requests: every multiple of 50 up to and including `total`. */
  function LegacyOffsets(total: Option<int>): (offs: seq<nat>)
    ensures forall m :: 0 <= m < |offs| ==> total.Some? && offs[m] <= total.value
    ensures forall m :: 0 < m < |offs| ==> offs[m] == offs[m - 1] + PageStep
    ensures |offs| > 0 ==> offs[0] == 0 && offs[|offs| - 1] + PageStep > total.value
    ensures total.Some? && total.value >= 0 ==> |offs| > 0
  {
    seq(LegacyPageCount(total), m => PageStep * m)
  }

  predicate AllOk(rs: seq<Result<seq<SavedTrack>, string>>) {
    forall i :: 0 <= i < |rs| ==> rs[i].Ok?
  }

  /** The error `Promise.all` rejects with; this model takes the failing page with the lowest offset, where the
      source takes whichever request fails first in time. */
  function FirstError(rs: seq<Result<seq<SavedTrack>, string>>): (e: Option<string>)
    ensures e.None? <==> AllOk(rs)
    ensures e.Some? ==> exists i :: 0 <= i < |rs| && rs[i] == Err(e.value)
  {
    if rs == [] then None
    else if rs[0].Err? then Some(rs[0].error)
    else
      var e := FirstError(rs[1..]);
      assert forall i :: 0 < i < |rs| ==> rs[i] == rs[1..][i - 1];
      e
  }

  /** `items = [...items, ...e]` over the pages in order. */
  function Concat(rs: seq<Result<seq<SavedTrack>, string>>): seq<SavedTrack>
    requires AllOk(rs)
  {
    if rs == [] then [] else Concat(rs[..|rs| - 1]) + rs[|rs| - 1].value
  }

  /** The results of the page requests at the legacy offsets. */
  function LegacyPages(total: Option<int>, pages: nat -> Result<seq<SavedTrack>, string>): (rs: seq<Result<seq<SavedTrack>, string>>)
    ensures |rs| == LegacyPageCount(total)
  {
    var offs := LegacyOffsets(total);
    seq(|offs|, m requires 0 <= m < |offs| => pages(offs[m]))
  }

  /** What `get_saved_tracks` resolves or rejects with. */
  function LegacySaved(total: Option<int>, pages: nat -> Result<seq<SavedTrack>, string>): (r: Result<seq<SavedTrack>, string>)
    ensures r.Err? ==> exists m :: 0 <= m < |LegacyOffsets(total)| && pages(LegacyOffsets(total)[m]) == Err(r.error)
    ensures r.Ok? ==> NewestFirst(r.value)
  {
    var rs := LegacyPages(total, pages);
    var e := FirstError(rs);
    if e.Some? then Err(e.value)
    else
      SortIsNewestFirst(Concat(rs));
      Ok(SortNewestFirst(Concat(rs)))
  }

  /**
   * `get_saved_tracks(token)`, with `count` the total the count request gives (`None` when it fails: the error
   * is only logged) and `pages(offset)` the outcome of the page request at `offset`.
   */
  method GetSavedTracks(count: Option<int>, pages: nat -> Result<seq<SavedTrack>, string>)
    returns (r: Result<seq<SavedTrack>, string>, requested: seq<nat>)
    ensures requested == LegacyOffsets(count)
    ensures r == LegacySaved(count, pages)
  {
    requested := [];
    var results: seq<Result<seq<SavedTrack>, string>> := [];
    if count.Some? {
      var total := count.value;
      var offset := 0;
      while offset <= total
        invariant offset == PageStep * |requested|
        invariant total >= 0 ==> offset <= total + PageStep
        invariant total < 0 ==> requested == []
        invariant requested == seq(|requested|, m => PageStep * m)
        invariant results == seq(|requested|, m requires 0 <= m < |requested| => pages(requested[m]))
        decreases total - offset
      {
        results := results + [pages(offset)];
        requested := requested + [offset];
        offset := offset + PageStep;
      }
      assert total >= 0 ==> |requested| == total / PageStep + 1;
    }
    assert requested == LegacyOffsets(count);
    var failure := FirstError(results);
    if failure.Some? {
      return Err(failure.value), requested;
    }
    var items := [];
    for i := 0 to |results|
      invariant AllOk(results[..i]) && items == Concat(results[..i])
    {
      assert results[..i + 1][..i] == results[..i];
      items := items + results[i].value;
    }
    assert results[..|results|] == results;
    r := Ok(SortNewestFirst(items));
  }

  /** Where the legacy loop and `fetchSavedTracks` differ: when `total` is a multiple of 50 (zero included) the
      legacy loop also requests the empty page at `offset = total`; otherwise both request the same offsets. */
  lemma LegacyOffsetsVsApi(total: int)
    ensures total > 0 && total % PageStep != 0 ==> LegacyOffsets(Some(total)) == SpotifyApi.Offsets(total)
    ensures total >= 0 && total % PageStep == 0 ==> LegacyOffsets(Some(total)) == SpotifyApi.Offsets(total) + [total]
    ensures total >= 0 ==> |LegacyOffsets(Some(total))| == total / PageStep + 1
  {
    SpotifyApi.OffsetsShape(total);
    var legacy, api := LegacyOffsets(Some(total)), SpotifyApi.Offsets(total);
    if total > 0 && total % PageStep != 0 {
      assert |legacy| == |api|;
    }
    if total >= 0 && total % PageStep == 0 {
      assert |legacy| == |api| + 1;
      assert legacy[|api|] == total;
    }
  }

  /**
   * A failed count request gives `[]` after no page request. Otherwise the call rejects exactly when a page
   * request fails; when none fails it resolves with every entry of the pages, newest first, keeping the offset
   * order of entries added at the same time.
   */
  lemma LegacySavedShape(total: Option<int>, pages: nat -> Result<seq<SavedTrack>, string>)
    ensures total.None? ==> LegacyOffsets(total) == [] && LegacySaved(total, pages) == Ok([])
    ensures LegacySaved(total, pages).Err? <==> exists o :: o in LegacyOffsets(total) && pages(o).Err?
    ensures LegacySaved(total, pages).Ok? ==>
              var all := Concat(LegacyPages(total, pages));
              var r := LegacySaved(total, pages).value;
              && NewestFirst(r) && multiset(r) == multiset(all)
              && forall t :: AddedAt(r, t) == AddedAt(all, t)
  {
    var offs := LegacyOffsets(total);
    var rs := LegacyPages(total, pages);
    if FirstError(rs).Some? {
      var i :| 0 <= i < |rs| && rs[i].Err?;
      assert offs[i] in offs;
    } else {
      forall o | o in offs ensures pages(o).Ok? {
        var m :| 0 <= m < |offs| && offs[m] == o;
        assert rs[m].Ok?;
      }
      var all := Concat(rs);
      SortIsNewestFirst(all);
      SortPermutes(all);
      forall t ensures AddedAt(SortNewestFirst(all), t) == AddedAt(all, t) {
        SortIsStable(all, t);
      }
    }
  }

  /** The fields of the legacy row of the `i`-th song (counted from 0); `None` when the song has no artist, where
      reading `artists[0].name` throws and `export_data_csv` rejects. */
  function LegacyRowValues(i: nat, item: SavedTrack, readable: nat -> string): Option<seq<string>> {
    if item.track.artists == [] then None
    else Some([NatToString(i), item.track.name, item.track.artists[0], item.addedAt, readable(item.track.durationMs)])
  }

  /** The lines of the legacy export: the header and one unescaped row per song. */
  function LegacyLines(songs: seq<SavedTrack>, readable: nat -> string): seq<string>
    requires forall k :: 0 <= k < |songs| ==> songs[k].track.artists != []
  {
    [Join(",", CsvExport.Header)]
      + seq(|songs|, k requires 0 <= k < |songs| => Join(",", LegacyRowValues(k, songs[k], readable).value))
  }

  /** The text `export_data_csv(songs)` hands to the download, `None` when it rejects. */
  function LegacyCsv(songs: seq<SavedTrack>, readable: nat -> string): (r: Option<string>)
    ensures r.Some? ==> Join(",", CsvExport.Header) <= r.value
    ensures songs == [] ==> r == Some(Join(",", CsvExport.Header))
  {
    if exists k :: 0 <= k < |songs| && songs[k].track.artists == [] then None
    else Some(Join("\n", LegacyLines(songs, readable)))
  }

  /** Values with no comma, quote or line break are written as they are, with or without escaping. */
  lemma {:induction false} PlainLine(values: seq<string>)
    requires forall j :: 0 <= j < |values| ==> !CsvExport.NeedsQuoting(values[j])
    ensures CsvExport.Line(values) == Join(",", values)
  {
    forall j | 0 <= j < |values| ensures CsvExport.EscapeField(Some(values[j])) == values[j] {
      CsvExport.PlainUnchanged(values[j]);
    }
    assert seq(|values|, j requires 0 <= j < |values| => CsvExport.EscapeField(Some(values[j]))) == values;
  }

  /** The rows of the legacy export, as values. */
  function LegacyRows(songs: seq<SavedTrack>, readable: nat -> string): seq<seq<string>>
    requires forall k :: 0 <= k < |songs| ==> songs[k].track.artists != []
  {
    seq(|songs|, k requires 0 <= k < |songs| => LegacyRowValues(k, songs[k], readable).value)
  }

  /** With no value needing quotes, the legacy text is the CSV document of the header and the legacy rows. */
  lemma LegacyCsvIsDocument(songs: seq<SavedTrack>, readable: nat -> string)
    requires forall k :: 0 <= k < |songs| ==> songs[k].track.artists != []
    requires forall k, j :: 0 <= k < |songs| && 0 <= j < 5 ==>
               !CsvExport.NeedsQuoting(LegacyRowValues(k, songs[k], readable).value[j])
    ensures LegacyCsv(songs, readable) == Some(CsvExport.Document([CsvExport.Header] + LegacyRows(songs, readable)))
  {
    var rows := LegacyRows(songs, readable);
    var all := [CsvExport.Header] + rows;
    var lines := LegacyLines(songs, readable);
    forall i | 0 <= i < |all| ensures CsvExport.Line(all[i]) == lines[i] {
      if i == 0 {
        CsvExport.HeaderIsLine();
      } else {
        PlainLine(rows[i - 1]);
      }
    }
    CsvExport.DocumentOfLines(all, lines);
  }

  /**
   * The legacy export as written: even when no value needs quoting, it reads back as a header of six columns
   * over rows of five values, counted from 0, whose fourth value (under "Album") is `added_at` and whose fifth
   * (under "Added At") is the duration.
   */
  lemma LegacyColumnsMisaligned(songs: seq<SavedTrack>, readable: nat -> string)
    requires forall k :: 0 <= k < |songs| ==> songs[k].track.artists != []
    requires forall k :: 0 <= k < |songs| ==>
               && !CsvExport.NeedsQuoting(songs[k].track.name) && !CsvExport.NeedsQuoting(songs[k].track.artists[0])
               && !CsvExport.NeedsQuoting(songs[k].addedAt) && !CsvExport.NeedsQuoting(readable(songs[k].track.durationMs))
    ensures LegacyCsv(songs, readable).Some?
    ensures var rows := LegacyRows(songs, readable);
            && CsvExport.ParseCsv(LegacyCsv(songs, readable).value) == Some([CsvExport.Header] + rows)
            && |CsvExport.Header| == 6 && CsvExport.Header[3] == "Album"
            && forall k :: 0 <= k < |songs| ==>
                 |rows[k]| == 5 && rows[k][0] == NatToString(k) && rows[k][3] == songs[k].addedAt
  {
    LegacyRowsPlain(songs, readable);
    LegacyReadsBack(songs, readable);
    CsvExport.HeaderColumns();
    LegacyRowsShape(songs, readable);
  }

  /** Each legacy row holds five values: the position counted from 0 first and `added_at` fourth. */
  lemma LegacyRowsShape(songs: seq<SavedTrack>, readable: nat -> string)
    requires forall k :: 0 <= k < |songs| ==> songs[k].track.artists != []
    ensures var rows := LegacyRows(songs, readable);
            forall k :: 0 <= k < |songs| ==>
              |rows[k]| == 5 && rows[k][0] == NatToString(k) && rows[k][3] == songs[k].addedAt
  {
  }

  /** With plain titles, artists, timestamps and durations, no value of a legacy row needs quotes. */
  lemma LegacyRowsPlain(songs: seq<SavedTrack>, readable: nat -> string)
    requires forall k :: 0 <= k < |songs| ==> songs[k].track.artists != []
    requires forall k :: 0 <= k < |songs| ==>
               && !CsvExport.NeedsQuoting(songs[k].track.name) && !CsvExport.NeedsQuoting(songs[k].track.artists[0])
               && !CsvExport.NeedsQuoting(songs[k].addedAt) && !CsvExport.NeedsQuoting(readable(songs[k].track.durationMs))
    ensures forall k, j :: 0 <= k < |songs| && 0 <= j < 5 ==>
              !CsvExport.NeedsQuoting(LegacyRowValues(k, songs[k], readable).value[j])
  {
    forall k, j | 0 <= k < |songs| && 0 <= j < 5
      ensures !CsvExport.NeedsQuoting(LegacyRowValues(k, songs[k], readable).value[j])
    {
      CsvExport.DigitsArePlain(NatToString(k));
    }
  }

  /** With no value needing quotes, the legacy text reads back as the header and the legacy rows. */
  lemma LegacyReadsBack(songs: seq<SavedTrack>, readable: nat -> string)
    requires forall k :: 0 <= k < |songs| ==> songs[k].track.artists != []
    requires forall k, j :: 0 <= k < |songs| && 0 <= j < 5 ==>
               !CsvExport.NeedsQuoting(LegacyRowValues(k, songs[k], readable).value[j])
    ensures LegacyCsv(songs, readable).Some?
    ensures CsvExport.ParseCsv(LegacyCsv(songs, readable).value)
         == Some([CsvExport.Header] + LegacyRows(songs, readable))
  {
    LegacyCsvIsDocument(songs, readable);
    var all := [CsvExport.Header] + LegacyRows(songs, readable);
    assert forall i :: 0 <= i < |all| ==> |all[i]| >= 1;
    CsvExport.CsvRoundTrip(all);
  }

  lemma JoinCons(sep: string, first: string, rest: seq<string>)
    requires rest != []
    ensures Join(sep, [first] + rest) == first + sep + Join(sep, rest)
  {
    assert ([first] + rest)[1..] == rest;
  }

  /** A value holding the separator reads, once joined, as two values. */
  lemma JoinSplits(sep: string, first: string, joined: string, a: string, b: string, rest: seq<string>)
    requires rest != [] && joined == a + sep + b
    ensures Join(sep, [first, joined] + rest) == Join(sep, [first, a, b] + rest)
  {
    JoinTwo(sep, first, joined, rest);
    JoinTwo(sep, a, b, rest);
    JoinCons(sep, first, [a, b] + rest);
    assert [first, a, b] + rest == [first] + ([a, b] + rest);
  }

  /** Two values in front of the others. */
  lemma JoinTwo(sep: string, x: string, y: string, rest: seq<string>)
    requires rest != []
    ensures Join(sep, [x, y] + rest) == x + sep + (y + sep + Join(sep, rest))
  {
    JoinCons(sep, x, [y] + rest);
    assert [x, y] + rest == [x] + ([y] + rest);
    JoinCons(sep, y, rest);
  }

  /** The legacy text of a single song with an artist: the header line and the song's row. */
  lemma LegacyCsvSingle(song: SavedTrack, readable: nat -> string, row: string)
    requires song.track.artists != [] && row == Join(",", LegacyRowValues(0, song, readable).value)
    ensures LegacyCsv([song], readable) == Some(Join("\n", [Join(",", CsvExport.Header), row]))
  {
    assert LegacyLines([song], readable) == [Join(",", CsvExport.Header), row];
  }

  /** The text of the legacy export of one song titled "A,B" by "C", which is also the text of six plain values. */
  lemma CommaSongText(readable: nat -> string)
    requires readable(1000) == "00:01"
    ensures LegacyCsv([SavedTrack("2020", 0, Track("A,B", ["C"], "D", 1000))], readable)
         == Some(Join("\n", [Join(",", CsvExport.Header), Join(",", ["0", "A", "B", "C", "2020", "00:01"])]))
  {
    var song := SavedTrack("2020", 0, Track("A,B", ["C"], "D", 1000));
    var tail := ["C", "2020", "00:01"];
    assert LegacyRowValues(0, song, readable).value == ["0", "A,B"] + tail;
    assert "A,B" == "A" + "," + "B";
    JoinSplits(",", "0", "A,B", "A", "B", tail);
    assert ["0", "A", "B"] + tail == ["0", "A", "B", "C", "2020", "00:01"];
    LegacyCsvSingle(song, readable, Join(",", ["0", "A", "B", "C", "2020", "00:01"]));
  }

  /** Six plain values form the line of the header and that row. */
  lemma SplitRowDocument()
    ensures var row := ["0", "A", "B", "C", "2020", "00:01"];
            CsvExport.Document([CsvExport.Header, row]) == Join("\n", [Join(",", CsvExport.Header), Join(",", row)])
  {
    var row := ["0", "A", "B", "C", "2020", "00:01"];
    forall j | 0 <= j < |row| ensures !CsvExport.NeedsQuoting(row[j]) {
      var v := row[j];
      forall c | 0 <= c < |v| ensures v[c] != ',' && v[c] != '"' && v[c] != '\n' {
      }
    }
    PlainLine(row);
    CsvExport.HeaderIsLine();
    CsvExport.DocumentOfLines([CsvExport.Header, row], [Join(",", CsvExport.Header), Join(",", row)]);
  }

  /** The legacy export as written, on one song titled "A,B": the unescaped comma splits the title, so the row
      reads back with "A" as the title, "B" under "Artist" and the artist under "Album". */
  lemma LegacyCommaSplitsTitle(readable: nat -> string)
    requires readable(1000) == "00:01"
    ensures var song := SavedTrack("2020", 0, Track("A,B", ["C"], "D", 1000));
            CsvExport.ParseCsv(LegacyCsv([song], readable).value)
              == Some([CsvExport.Header, ["0", "A", "B", "C", "2020", "00:01"]])
  {
    CommaSongText(readable);
    SplitRowDocument();
    CsvExport.CsvRoundTrip([CsvExport.Header, ["0", "A", "B", "C", "2020", "00:01"]]);
  }
}
