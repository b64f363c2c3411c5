/** The CSV text the export writes: fields joined by ',', lines joined by '\n', and a
    field holding ',' or '"' wrapped in quotes with each '"' doubled (rules 6 and 7 of
    section 2 of RFC 4180; rule 6's line breaks are not quoted).

    `ParseDocument` is an independent reader of that format, the reference the writer is
    checked against: what is written reads back as the fields it was written from. */
module Csv {
  import opened Wrappers
  import opened Text

  predicate NeedsQuoting(s: string)
  {
    ',' in s || '"' in s
  }

  /** `s.replace(/"/g, '""')`. */
  function DoubleQuotes(s: string): (r: string)
    ensures |r| >= |s|
    ensures '\n' in r <==> '\n' in s
  {
    if s == [] then []
    else if s[0] == '"' then "\"\"" + DoubleQuotes(s[1..])
    else [s[0]] + DoubleQuotes(s[1..])
  }

  /** The cell text of a string value. */
  function EscapeField(s: string): (r: string)
    ensures NeedsQuoting(s) ==> |r| >= 2 && r[0] == '"' && r[|r| - 1] == '"'
    ensures !NeedsQuoting(s) ==> r == s
    ensures '\n' in r <==> '\n' in s
  {
    if NeedsQuoting(s) then "\"" + DoubleQuotes(s) + "\"" else s
  }

  function EscapeAll(fields: seq<string>): (r: seq<string>)
    ensures |r| == |fields|
  {
    if fields == [] then [] else [EscapeField(fields[0])] + EscapeAll(fields[1..])
  }

  /** One CSV line. */
  function EncodeLine(fields: seq<string>): string
  {
    Join(EscapeAll(fields), ',')
  }

  /** The body of a quoted field, read up to its closing quote; `None` if it never closes. */
  function ParseQuoted(s: string): (r: Option<(string, string)>)
    ensures r.Some? ==> |r.value.1| < |s|
    decreases |s|
  {
    if s == [] then None
    else if s[0] == '"' then
      if |s| >= 2 && s[1] == '"' then
        match ParseQuoted(s[2..])
        case None => None
        case Some((t, rest)) => Some(("\"" + t, rest))
      else Some(("", s[1..]))
    else
      match ParseQuoted(s[1..])
      case None => None
      case Some((t, rest)) => Some(([s[0]] + t, rest))
  }

  /** An unquoted field runs to the next ','. */
  function ParseUnquoted(s: string): (r: (string, string))
    ensures |r.1| <= |s|
    ensures r.0 + r.1 == s
    ensures ',' !in r.0
    ensures r.1 == [] || r.1[0] == ','
  {
    if s == [] || s[0] == ',' then ("", s)
    else
      var (t, rest) := ParseUnquoted(s[1..]);
      ([s[0]] + t, rest)
  }

  function ParseField(s: string): (r: Option<(string, string)>)
    ensures r.Some? ==> |r.value.1| <= |s|
  {
    if s != [] && s[0] == '"' then ParseQuoted(s[1..]) else Some(ParseUnquoted(s))
  }

  /** The fields of one line; `None` for a line that is not well formed. */
  function ParseFields(s: string): Option<seq<string>>
    decreases |s|
  {
    match ParseField(s)
    case None => None
    case Some((f, rest)) =>
      if rest == [] then Some([f])
      else if rest[0] != ',' then None
      else
        match ParseFields(rest[1..])
        case None => None
        case Some(fs) => Some([f] + fs)
  }

  /** The lines of a document and the fields of each. */
  function ParseDocument(s: string): Option<seq<seq<string>>>
  {
    ParseLines(Split(s, '\n'))
  }

  function ParseLines(lines: seq<string>): Option<seq<seq<string>>>
  {
    if lines == [] then Some([])
    else
      match (ParseFields(lines[0]), ParseLines(lines[1..]))
      case (Some(fs), Some(rest)) => Some([fs] + rest)
      case _ => None
  }

  /** A header line followed by one line per record, joined with '\n'. */
  function Document(header: seq<string>, records: seq<seq<string>>): string
  {
    Join([Join(header, ',')] + EncodeLines(records), '\n')
  }

  function EncodeLines(records: seq<seq<string>>): (r: seq<string>)
    ensures |r| == |records|
    ensures forall i :: 0 <= i < |records| ==> r[i] == EncodeLine(records[i])
  {
    if records == [] then [] else [EncodeLine(records[0])] + EncodeLines(records[1..])
  }

  lemma {:induction false} QuotedRoundTrip(x: string, tail: string)
    requires tail == [] || tail[0] != '"'
    ensures ParseQuoted(DoubleQuotes(x) + "\"" + tail) == Some((x, tail))
    decreases |x|
  {
    var s := DoubleQuotes(x) + "\"" + tail;
    if x == [] {
      assert s == "\"" + tail;
      assert s[1..] == tail;
    } else {
      QuotedRoundTrip(x[1..], tail);
      var inner := DoubleQuotes(x[1..]) + "\"" + tail;
      if x[0] == '"' {
        assert s == "\"\"" + inner;
        assert s[2..] == inner;
      } else {
        assert s == [x[0]] + inner;
        assert s[1..] == inner;
      }
      assert [x[0]] + x[1..] == x;
    }
  }

  lemma {:induction false} UnquotedRoundTrip(x: string, tail: string)
    requires ',' !in x
    requires tail == [] || tail[0] == ','
    ensures ParseUnquoted(x + tail) == (x, tail)
    decreases |x|
  {
    if x == [] {
      assert x + tail == tail;
    } else {
      UnquotedRoundTrip(x[1..], tail);
      assert (x + tail)[1..] == x[1..] + tail;
      assert [x[0]] + x[1..] == x;
    }
  }

  /** A written field reads back as the value, leaving the rest of the line. */
  lemma FieldRoundTrip(x: string, tail: string)
    requires tail == [] || tail[0] == ','
    ensures ParseField(EscapeField(x) + tail) == Some((x, tail))
  {
    if NeedsQuoting(x) {
      var body := DoubleQuotes(x) + "\"" + tail;
      assert EscapeField(x) + tail == "\"" + body;
      assert ("\"" + body)[0] == '"' && ("\"" + body)[1..] == body;
      QuotedRoundTrip(x, tail);
    } else {
      var s := x + tail;
      assert s == [] || s[0] != '"' by {
        if x != [] {
          assert s[0] == x[0];
        }
      }
      UnquotedRoundTrip(x, tail);
    }
  }

  /** A written line reads back as its fields. */
  lemma {:induction false} LineRoundTrip(fields: seq<string>)
    requires |fields| > 0
    ensures ParseFields(EncodeLine(fields)) == Some(fields)
    decreases |fields|
  {
    var e := EscapeAll(fields);
    if |fields| == 1 {
      assert e == [EscapeField(fields[0])];
      assert EncodeLine(fields) == EscapeField(fields[0]) + "";
      FieldRoundTrip(fields[0], "");
      assert fields == [fields[0]];
    } else {
      var rest := EncodeLine(fields[1..]);
      assert e[1..] == EscapeAll(fields[1..]);
      assert EncodeLine(fields) == EscapeField(fields[0]) + ("," + rest);
      FieldRoundTrip(fields[0], "," + rest);
      assert ("," + rest)[1..] == rest;
      LineRoundTrip(fields[1..]);
      assert [fields[0]] + fields[1..] == fields;
    }
  }

  /** Each part of a join holds no `c`, and `c` is not the separator: the join holds no `c`. */
  lemma {:induction false} JoinAvoids(parts: seq<string>, sep: char, c: char)
    requires sep != c
    requires forall i :: 0 <= i < |parts| ==> c !in parts[i]
    ensures c !in Join(parts, sep)
    decreases |parts|
  {
    if |parts| > 1 {
      JoinAvoids(parts[1..], sep, c);
    }
  }

  lemma {:induction false} EscapeAllAvoidsNewline(fields: seq<string>)
    requires forall i :: 0 <= i < |fields| ==> '\n' !in fields[i]
    ensures forall i :: 0 <= i < |fields| ==> '\n' !in EscapeAll(fields)[i]
    decreases |fields|
  {
    if fields != [] {
      EscapeAllAvoidsNewline(fields[1..]);
      var e := EscapeAll(fields);
      forall i | 0 <= i < |fields| ensures '\n' !in e[i] {
        if i > 0 {
          assert e[i] == EscapeAll(fields[1..])[i - 1];
        }
      }
    }
  }

  predicate NoNewline(fields: seq<string>)
  {
    forall i :: 0 <= i < |fields| ==> '\n' !in fields[i]
  }

  /** Reading a line in front of readable lines. */
  lemma ParseLinesCons(line: string, fs: seq<string>, lines: seq<string>, rest: seq<seq<string>>)
    requires ParseFields(line) == Some(fs) && ParseLines(lines) == Some(rest)
    ensures ParseLines([line] + lines) == Some([fs] + rest)
  {
    var all := [line] + lines;
    assert all[0] == line && all[1..] == lines;
  }

  lemma {:induction false} ParseLinesRoundTrip(records: seq<seq<string>>)
    requires forall i :: 0 <= i < |records| ==> |records[i]| > 0
    ensures ParseLines(EncodeLines(records)) == Some(records)
    decreases |records|
  {
    if records != [] {
      var first, rest := records[0], records[1..];
      assert records == [first] + rest;
      assert forall i :: 0 <= i < |rest| ==> |rest[i]| > 0 by {
        forall i | 0 <= i < |rest| ensures |rest[i]| > 0 {
          assert rest[i] == records[i + 1];
        }
      }
      ParseLinesRoundTrip(rest);
      LineRoundTrip(first);
      ParseLinesCons(EncodeLine(first), first, EncodeLines(rest), rest);
      assert EncodeLines(records) == [EncodeLine(first)] + EncodeLines(rest);
    }
  }

  /** When no field holds a line break, the document reads back as its header and records. */
  lemma DocumentRoundTrip(header: seq<string>, records: seq<seq<string>>)
    requires |header| > 0 && NoNewline(header)
    requires forall i :: 0 <= i < |header| ==> !NeedsQuoting(header[i])
    requires forall i :: 0 <= i < |records| ==> |records[i]| > 0 && NoNewline(records[i])
    ensures ParseDocument(Document(header, records)) == Some([header] + records)
  {
    var lines := [Join(header, ',')] + EncodeLines(records);
    assert Join(header, ',') == EncodeLine(header) by {
      EscapeAllKeeps(header);
    }
    JoinAvoids(header, ',', '\n');
    forall i | 0 <= i < |records| ensures '\n' !in EncodeLines(records)[i] {
      EscapeAllAvoidsNewline(records[i]);
      JoinAvoids(EscapeAll(records[i]), ',', '\n');
    }
    assert forall i :: 0 <= i < |lines| ==> '\n' !in lines[i] by {
      forall i | 0 <= i < |lines| ensures '\n' !in lines[i] {
        if i > 0 {
          assert lines[i] == EncodeLines(records)[i - 1];
        }
      }
    }
    SplitJoin(lines, '\n');
    LineRoundTrip(header);
    ParseLinesRoundTrip(records);
    assert lines[1..] == EncodeLines(records);
  }

  /** Fields that need no quoting are written unchanged. */
  lemma {:induction false} EscapeAllKeeps(fields: seq<string>)
    requires forall i :: 0 <= i < |fields| ==> !NeedsQuoting(fields[i])
    ensures EscapeAll(fields) == fields
    decreases |fields|
  {
    if fields != [] {
      EscapeAllKeeps(fields[1..]);
      assert [fields[0]] + fields[1..] == fields;
    }
  }

  /** Line breaks are not quoted: a one-field record `a` + '\n' + `b` is read back as two lines. */
  lemma NewlineSplitsRecord(h: string, a: string, b: string)
    requires '\n' !in h && '\n' !in a && '\n' !in b
    requires !NeedsQuoting(a + "\n" + b)
    ensures Split(Document([h], [[a + "\n" + b]]), '\n') == [h, a, b]
  {
    var x := a + "\n" + b;
    assert EscapeAll([x]) == [x];
    assert EncodeLine([x]) == x;
    assert EncodeLines([[x]]) == [x];
    assert Join([h], ',') == h;
    assert Join([h, x], '\n') == h + ['\n'] + Join([x], '\n');
    SplitAround(h, '\n', x);
    SplitAround(a, '\n', b);
    SplitNoSeparator(h, '\n');
    SplitNoSeparator(a, '\n');
    SplitNoSeparator(b, '\n');
  }
}
