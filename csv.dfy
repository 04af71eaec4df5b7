/** Comma-separated values as RFC 4180 section 2 defines them: records
    separated by line breaks, fields by commas, and a field that needs it
    enclosed in double quotes with every inner double quote doubled. The
    writer builds the text the export produces; the reader is the partner
    that proves nothing is lost. */
module Csv {
  import opened Strings

  /** A field as written: bare text, or text in double quotes. */
  datatype Cell = Bare(text: string) | Quoted(text: string)

  /** What a reader consumed, and the input it left. */
  datatype Read<T> = Read(value: T, rest: string)

  /** Every `"` doubled. */
  function Escape(s: string): (r: string)
    ensures |r| >= |s|
  {
    if s == [] then []
    else (if s[0] == '"' then "\"\"" else [s[0]]) + Escape(s[1..])
  }

  /** Escaping keeps every character: a quote comes out doubled, any other
      character as it is. */
  lemma {:induction false} EscapeKeeps(s: string)
    ensures forall c :: c in s <==> c in Escape(s)
  {
    if s != [] {
      EscapeKeeps(s[1..]);
      assert s == [s[0]] + s[1..];
    }
  }

  /** One character: a quote becomes two quotes, anything else stays. */
  lemma EscapeChar(c: char)
    ensures Escape([c]) == if c == '"' then "\"\"" else [c]
  {
    assert [c][1..] == [];
  }

  /** Escaping works character by character: the escape of a text is the
      escapes of its pieces, one after the other. */
  lemma {:induction false} EscapeAppend(a: string, b: string)
    ensures Escape(a + b) == Escape(a) + Escape(b)
  {
    if a == [] {
      assert a + b == b;
    } else {
      assert (a + b)[1..] == a[1..] + b;
      EscapeAppend(a[1..], b);
    }
  }

  /** The text in double quotes, inner quotes doubled. */
  function Quote(s: string): (r: string)
    ensures |r| >= 2 && r[0] == '"' && r[|r| - 1] == '"'
  {
    "\"" + Escape(s) + "\""
  }

  function CellText(c: Cell): string
  {
    match c
    case Bare(t) => t
    case Quoted(t) => Quote(t)
  }

  /** A character a bare field may hold without changing the record's shape. */
  predicate PlainChar(ch: char)
  {
    ch != ',' && ch != '\n' && ch != '"'
  }

  predicate Writable(c: Cell)
  {
    c.Bare? ==> forall i :: 0 <= i < |c.text| ==> PlainChar(c.text[i])
  }

  function Texts(cells: seq<Cell>): (r: seq<string>)
    ensures |r| == |cells| && forall i :: 0 <= i < |cells| ==> r[i] == CellText(cells[i])
  {
    seq(|cells|, i requires 0 <= i < |cells| => CellText(cells[i]))
  }

  /** The values a reader should get back. */
  function Values(cells: seq<Cell>): (r: seq<string>)
    ensures |r| == |cells| && forall i :: 0 <= i < |cells| ==> r[i] == cells[i].text
  {
    seq(|cells|, i requires 0 <= i < |cells| => cells[i].text)
  }

  /** The values a reader should get back from a whole document. */
  function DocumentValues(records: seq<seq<Cell>>): (r: seq<seq<string>>)
    ensures |r| == |records| && forall i :: 0 <= i < |records| ==> r[i] == Values(records[i])
  {
    seq(|records|, i requires 0 <= i < |records| => Values(records[i]))
  }

  /** Reading two documents one after the other reads each in turn. */
  lemma DocumentValuesAppend(a: seq<seq<Cell>>, b: seq<seq<Cell>>)
    ensures DocumentValues(a + b) == DocumentValues(a) + DocumentValues(b)
  {
    assert forall i :: 0 <= i < |b| ==> (a + b)[|a| + i] == b[i];
  }

  /** One record: the fields joined with ",". */
  function RecordText(cells: seq<Cell>): string
  {
    Join(Texts(cells), ",")
  }

  function Lines(records: seq<seq<Cell>>): (r: seq<string>)
    ensures |r| == |records| && forall i :: 0 <= i < |records| ==> r[i] == RecordText(records[i])
  {
    seq(|records|, i requires 0 <= i < |records| => RecordText(records[i]))
  }

  /** The document: the records joined with "\n". */
  function DocumentText(records: seq<seq<Cell>>): string
  {
    Join(Lines(records), "\n")
  }

  /** The inside of a quoted field, after its opening quote: a doubled quote
      stands for one quote, a single quote closes the field. An unterminated
      field takes the rest of the input. */
  function ReadQuoted(s: string): (r: Read<string>)
    ensures |r.rest| <= |s|
  {
    if s == [] then Read("", "")
    else if s[0] == '"' then
      if |s| > 1 && s[1] == '"' then
        var more := ReadQuoted(s[2..]);
        Read("\"" + more.value, more.rest)
      else Read("", s[1..])
    else
      var more := ReadQuoted(s[1..]);
      Read([s[0]] + more.value, more.rest)
  }

  /** A bare field: everything up to the next comma or line break. */
  function ReadBare(s: string): (r: Read<string>)
    ensures |r.rest| <= |s|
    ensures r.rest == [] || r.rest[0] == ',' || r.rest[0] == '\n'
  {
    if s == [] || s[0] == ',' || s[0] == '\n' then Read("", s)
    else
      var more := ReadBare(s[1..]);
      Read([s[0]] + more.value, more.rest)
  }

  function ReadField(s: string): (r: Read<string>)
    ensures |r.rest| <= |s|
    ensures s != [] && |r.rest| == |s| ==> r.rest[0] == ',' || r.rest[0] == '\n'
  {
    if s != [] && s[0] == '"' then ReadQuoted(s[1..]) else ReadBare(s)
  }

  /** The fields of one record, and the input after its line break. Text
      after a closing quote that is neither a comma nor a line break ends
      the input. */
  function ReadRecord(s: string): (r: Read<seq<string>>)
    ensures |r.value| > 0
    ensures |r.rest| <= |s| && (s != [] ==> |r.rest| < |s|)
    decreases |s|
  {
    var f := ReadField(s);
    if f.rest != [] && f.rest[0] == ',' then
      var more := ReadRecord(f.rest[1..]);
      Read([f.value] + more.value, more.rest)
    else if f.rest != [] && f.rest[0] == '\n' then Read([f.value], f.rest[1..])
    else Read([f.value], [])
  }

  /** All records of a document. */
  function ReadDocument(s: string): (r: seq<seq<string>>)
    decreases |s|
  {
    if s == [] then []
    else
      var record := ReadRecord(s);
      [record.value] + ReadDocument(record.rest)
  }

  lemma {:induction false} QuotedRoundTrip(t: string, rest: string)
    requires rest == [] || rest[0] != '"'
    ensures ReadQuoted(Escape(t) + "\"" + rest) == Read(t, rest)
  {
    if t == [] {
      assert Escape(t) + "\"" + rest == "\"" + rest;
    } else {
      var tail := Escape(t[1..]) + "\"" + rest;
      QuotedRoundTrip(t[1..], rest);
      EscapeCons(t, rest);
      if t[0] == '"' {
        ReadQuotedPair(tail);
      } else {
        ReadQuotedChar(t[0], tail);
      }
      assert t == [t[0]] + t[1..];
    }
  }

  /** The escaped text, its closing quote and what follows, one character at a time. */
  lemma EscapeCons(t: string, rest: string)
    requires t != []
    ensures Escape(t) + "\"" + rest
         == (if t[0] == '"' then "\"\"" else [t[0]]) + (Escape(t[1..]) + "\"" + rest)
  {
  }

  /** A doubled quote reads as one quote, and reading goes on. */
  lemma ReadQuotedPair(tail: string)
    ensures ReadQuoted("\"\"" + tail) == Read("\"" + ReadQuoted(tail).value, ReadQuoted(tail).rest)
  {
    assert ("\"\"" + tail)[2..] == tail;
  }

  /** Any other character is kept, and reading goes on. */
  lemma ReadQuotedChar(c: char, tail: string)
    requires c != '"'
    ensures ReadQuoted([c] + tail) == Read([c] + ReadQuoted(tail).value, ReadQuoted(tail).rest)
  {
    assert ([c] + tail)[1..] == tail;
  }

  lemma {:induction false} BareRoundTrip(t: string, rest: string)
    requires forall i :: 0 <= i < |t| ==> PlainChar(t[i])
    requires rest == [] || rest[0] == ',' || rest[0] == '\n'
    ensures ReadBare(t + rest) == Read(t, rest)
  {
    if t != [] {
      assert (t + rest)[1..] == t[1..] + rest;
      BareRoundTrip(t[1..], rest);
      assert t == [t[0]] + t[1..];
    } else {
      assert t + rest == rest;
    }
  }

  /** A written field reads back as its value, leaving the separator. */
  lemma FieldRoundTrip(c: Cell, rest: string)
    requires Writable(c)
    requires rest == [] || rest[0] == ',' || rest[0] == '\n'
    ensures ReadField(CellText(c) + rest) == Read(c.text, rest)
  {
    match c
    case Bare(t) =>
      BareRoundTrip(t, rest);
      if t == [] {
        assert t + rest == rest;
      }
    case Quoted(t) =>
      var s := Quote(t) + rest;
      assert s == "\"" + (Escape(t) + "\"" + rest);
      assert s[1..] == Escape(t) + "\"" + rest;
      QuotedRoundTrip(t, rest);
  }

  /** A written record reads back as its values, and the reader stops just
      after the line break that follows it. */
  lemma {:induction false} RecordRoundTrip(cells: seq<Cell>, rest: string)
    requires |cells| > 0
    requires forall i :: 0 <= i < |cells| ==> Writable(cells[i])
    requires rest == [] || rest[0] == '\n'
    ensures ReadRecord(RecordText(cells) + rest)
            == Read(Values(cells), if rest == [] then [] else rest[1..])
  {
    if |cells| == 1 {
      assert RecordText(cells) == CellText(cells[0]);
      FieldRoundTrip(cells[0], rest);
      assert Values(cells) == [cells[0].text];
    } else {
      var tail := RecordText(cells[1..]) + rest;
      RecordTextCons(cells, rest);
      FieldRoundTrip(cells[0], "," + tail);
      assert ("," + tail)[1..] == tail;
      RecordRoundTrip(cells[1..], rest);
      ValuesCons(cells);
    }
  }

  /** A record of several fields is its first field, a comma and the rest. */
  lemma RecordTextCons(cells: seq<Cell>, rest: string)
    requires |cells| > 1
    ensures RecordText(cells) + rest == CellText(cells[0]) + ("," + (RecordText(cells[1..]) + rest))
  {
    assert Texts(cells)[1..] == Texts(cells[1..]);
  }

  lemma ValuesCons(cells: seq<Cell>)
    requires |cells| > 0
    ensures Values(cells) == [cells[0].text] + Values(cells[1..])
  {
  }

  /** A record is well formed for writing: at least one field, every field
      writable, and the written text not empty (an empty last line would
      read as no record at all). */
  predicate WellFormed(cells: seq<Cell>)
  {
    && |cells| > 0
    && (forall i :: 0 <= i < |cells| ==> Writable(cells[i]))
    && RecordText(cells) != []
  }

  /** Reading a written document gives back every record's values, in order:
      one record per written record, whatever line breaks a quoted field
      holds. */
  lemma {:induction false} DocumentRoundTrip(records: seq<seq<Cell>>)
    requires forall i :: 0 <= i < |records| ==> WellFormed(records[i])
    ensures ReadDocument(DocumentText(records)) == DocumentValues(records)
  {
    if |records| == 1 {
      assert DocumentText(records) == RecordText(records[0]) + [];
      RecordRoundTrip(records[0], []);
    } else if |records| > 1 {
      var tail := DocumentText(records[1..]);
      DocumentTextCons(records);
      RecordRoundTrip(records[0], "\n" + tail);
      assert ("\n" + tail)[1..] == tail;
      DocumentRoundTrip(records[1..]);
      DocumentValuesCons(records);
    }
  }

  /** A document of several records is its first record, a line break and the rest. */
  lemma DocumentTextCons(records: seq<seq<Cell>>)
    requires |records| > 1
    ensures DocumentText(records) == RecordText(records[0]) + ("\n" + DocumentText(records[1..]))
  {
    assert Lines(records)[1..] == Lines(records[1..]);
  }

  lemma DocumentValuesCons(records: seq<seq<Cell>>)
    requires |records| > 0
    ensures DocumentValues(records) == [Values(records[0])] + DocumentValues(records[1..])
  {
  }
}
