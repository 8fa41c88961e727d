/** One line of a master file read as a record: the fields are separated by
    ',' and each is wrapped in one pair of double quotes. A field is read the
    way std::getline(record, field, ',') reads it from a std::stringstream, and
    its quotes are dropped the way field.substr(1, field.length() - 2) drops
    them. */
module Records {

  /** Position of the first ',' in line, or |line| when there is none. */
  function CommaIndex(line: string): (i: nat)
    ensures i <= |line|
    ensures forall j :: 0 <= j < i ==> line[j] != ','
    ensures i < |line| ==> line[i] == ','
  {
    if |line| == 0 || line[0] == ',' then 0 else 1 + CommaIndex(line[1..])
  }

  /** The text before the first ',' (the whole line when it has no ','). */
  function FirstField(line: string): string
  {
    line[..CommaIndex(line)]
  }

  /** What follows the first ','; empty when the line has no ','. */
  function AfterFirstField(line: string): string
  {
    var i := CommaIndex(line);
    if i < |line| then line[i + 1..] else ""
  }

  /** The text between the first and the second ',' (or the end of the line). */
  function SecondField(line: string): string
  {
    FirstField(AfterFirstField(line))
  }

  /** substr(1, length - 2): drops the first and the last character. A field
      of length 1 gives "" as in C++; the empty field, on which substr throws,
      also gives "", and the extraction methods exclude it by precondition. */
  function Unquote(field: string): string
  {
    if |field| < 2 then "" else field[1..|field| - 1]
  }

  /** The join key of a record: its first field without its quotes. */
  function Key(line: string): string
  {
    Unquote(FirstField(line))
  }

  /** The invoice code the invoice pass reads from a record: its second field
      without its quotes. On a line without ',' the second getline finds the
      stream exhausted and leaves the field as the first getline filled it, so
      the code read is the record's key. */
  function SecondKey(line: string): string
  {
    if CommaIndex(line) < |line| then Unquote(SecondField(line)) else Key(line)
  }

  /** A line whose key can be read without substr throwing: it is empty (and
      then skipped) or its first field is not empty. */
  predicate Parsable(line: string)
  {
    line == "" || line[0] != ','
  }

  predicate AllParsable(lines: seq<string>)
  {
    forall i :: 0 <= i < |lines| ==> Parsable(lines[i])
  }

  /** A line whose invoice code can be read without substr throwing: either
      it has no ',' (the field keeps the first field) or the text after its
      first ',' starts with a non-empty second field. */
  predicate SecondKeyReadable(line: string)
  {
    CommaIndex(line) == |line| || SecondField(line) != ""
  }

  function Quote(s: string): string
  {
    "\"" + s + "\""
  }

  /** Dropping the quotes of a quoted text gives the text back. */
  lemma UnquoteQuote(s: string)
    ensures Unquote(Quote(s)) == s
  {
    assert Quote(s)[1..|Quote(s)| - 1] == s;
  }

  /** Reading the first field back: the key of a record that starts with a
      quoted comma-free code is that code, whatever follows the comma. */
  lemma KeyOfRecord(code: string, rest: string)
    requires ',' !in code
    ensures Key(Quote(code)) == code
    ensures Key(Quote(code) + "," + rest) == code
  {
    var line := Quote(code) + "," + rest;
    assert forall j :: 0 <= j < |Quote(code)| ==> Quote(code)[j] != ',';
    assert CommaIndex(line) == |Quote(code)| by {
      assert line[|Quote(code)|] == ',';
      assert forall j :: 0 <= j < |Quote(code)| ==> line[j] == Quote(code)[j];
    }
    assert FirstField(line) == Quote(code);
    assert CommaIndex(Quote(code)) == |Quote(code)|;
    UnquoteQuote(code);
  }

  /** Reading the second field back: a record "a","b" followed by nothing or
      by further fields has invoice code b. */
  lemma SecondKeyOfRecord(first: string, second: string, rest: string)
    requires ',' !in first && ',' !in second
    requires rest == "" || rest[0] == ','
    ensures SecondKey(Quote(first) + "," + Quote(second) + rest) == second
    ensures SecondKeyReadable(Quote(first) + "," + Quote(second) + rest)
  {
    var line := Quote(first) + "," + Quote(second) + rest;
    var tail := Quote(second) + rest;
    assert line == Quote(first) + "," + tail;
    assert CommaIndex(line) == |Quote(first)| by {
      assert line[|Quote(first)|] == ',';
      assert forall j :: 0 <= j < |Quote(first)| ==> line[j] == Quote(first)[j];
    }
    assert AfterFirstField(line) == tail;
    assert CommaIndex(tail) == |Quote(second)| by {
      assert forall j :: 0 <= j < |Quote(second)| ==> tail[j] == Quote(second)[j];
      assert forall j :: 0 <= j < |Quote(second)| ==> Quote(second)[j] != ',';
      assert rest != "" ==> tail[|Quote(second)|] == ',';
    }
    assert SecondField(line) == Quote(second);
    UnquoteQuote(second);
  }

  /** A record of a single field yields its own key as its invoice code. */
  lemma SecondKeyOfSingleField(code: string)
    requires ',' !in code
    ensures SecondKey(Quote(code)) == code
  {
    KeyOfRecord(code, "");
    assert forall j :: 0 <= j < |Quote(code)| ==> Quote(code)[j] != ',';
  }
}
