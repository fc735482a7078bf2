/**
 The CSV field parser of the tabular handler (src/sdi/handlers/TabularHandler.ts) and the
 quoting rules of RFC 4180, section 2, that it undoes.
 */
module CsvLine {

  const QUOTE: char := '"'

  /** The fields in `rest`, given the text `current` collected for the field being read. */
  function Fields(rest: string, delimiter: char, current: string, inQuotes: bool): (fields: seq<string>)
    ensures |fields| >= 1
    decreases |rest|
  {
    if rest == "" then [current]
    else if rest[0] == QUOTE then
      if inQuotes && |rest| > 1 && rest[1] == QUOTE then
        Fields(rest[2..], delimiter, current + [QUOTE], inQuotes)
      else
        Fields(rest[1..], delimiter, current, !inQuotes)
    else if rest[0] == delimiter && !inQuotes then
      [current] + Fields(rest[1..], delimiter, "", inQuotes)
    else
      Fields(rest[1..], delimiter, current + [rest[0]], inQuotes)
  }

  /** The character loop. */
  method ParseLine(line: string, delimiter: char) returns (result: seq<string>)
    ensures result == Fields(line, delimiter, "", false)
  {
    result := [];
    var current := "";
    var inQuotes := false;
    var i := 0;
    while i < |line|
      invariant 0 <= i <= |line|
      invariant Fields(line, delimiter, "", false) == result + Fields(line[i..], delimiter, current, inQuotes)
    {
      var ch := line[i];
      if ch == QUOTE {
        if inQuotes && i + 1 < |line| && line[i + 1] == QUOTE {
          current := current + [QUOTE];
          i := i + 1;
        } else {
          inQuotes := !inQuotes;
        }
      } else if ch == delimiter && !inQuotes {
        result := result + [current];
        current := "";
      } else {
        current := current + [ch];
      }
      i := i + 1;
    }
    result := result + [current];
  }

  // Any line at all

  function Quotes(s: string): nat {
    if s == "" then 0 else Quotes(s[..|s| - 1]) + if s[|s| - 1] == QUOTE then 1 else 0
  }

  /** A place is inside quotes if the number of quotes before it is odd. */
  predicate Inside(line: string, i: nat)
    requires i <= |line|
  {
    Quotes(line[..i]) % 2 == 1
  }

  /** Of the quotes, those are text that follow another one which is inside. */
  predicate IsText(line: string, i: nat)
    requires i < |line|
  {
    line[i] == QUOTE ==> i > 0 && line[i - 1] == QUOTE && Inside(line, i - 1)
  }

  predicate Splits(line: string, delimiter: char, i: nat)
    requires i < |line|
  {
    line[i] != QUOTE && line[i] == delimiter && !Inside(line, i)
  }

  /** The fields of the first `n` characters, told from the number of quotes before each. */
  function FieldsByParity(line: string, delimiter: char, n: nat): (fields: seq<string>)
    requires n <= |line|
    ensures |fields| >= 1
  {
    if n == 0 then [""]
    else
      var before := FieldsByParity(line, delimiter, n - 1);
      var last := |before| - 1;
      if Splits(line, delimiter, n - 1) then before + [""]
      else if IsText(line, n - 1) then before[last := before[last] + [line[n - 1]]]
      else before
  }

  lemma OneMoreCharacter(line: string, i: nat)
    requires i < |line|
    ensures Quotes(line[..i + 1]) == Quotes(line[..i]) + if line[i] == QUOTE then 1 else 0
  {
    assert line[..i + 1][..i] == line[..i];
  }

  /** Where the loop stands at place `i`; a quote that has just closed is followed by something else. */
  ghost predicate Reading(line: string, delimiter: char, i: nat, result: seq<string>, current: string, inQuotes: bool) {
    && i <= |line| && inQuotes == Inside(line, i)
    && FieldsByParity(line, delimiter, i) == result + [current]
    && (0 < i < |line| && !inQuotes && line[i - 1] == QUOTE && Inside(line, i - 1) ==> line[i] != QUOTE)
  }

  lemma QuoteRead(line: string, delimiter: char, i: nat, result: seq<string>, current: string, inQuotes: bool)
    requires Reading(line, delimiter, i, result, current, inQuotes) && i < |line| && line[i] == QUOTE
    ensures FieldsByParity(line, delimiter, i + 1) == result + [current]
    ensures Inside(line, i + 1) == !inQuotes
  {
    OneMoreCharacter(line, i);
    if i > 0 {
      OneMoreCharacter(line, i - 1);
    }
  }

  lemma PairRead(line: string, delimiter: char, i: nat, result: seq<string>, current: string)
    requires Reading(line, delimiter, i, result, current, true) && i + 1 < |line| && line[i] == line[i + 1] == QUOTE
    ensures Reading(line, delimiter, i + 2, result, current + [QUOTE], true)
  {
    QuoteRead(line, delimiter, i, result, current, true);
    OneMoreCharacter(line, i + 1);
    assert IsText(line, i + 1);
    LastField(result, current, QUOTE);
  }

  lemma LastField(result: seq<string>, current: string, c: char)
    ensures var before := result + [current];
            before[|result| := before[|result|] + [c]] == result + [current + [c]]
  {
  }

  lemma OtherRead(line: string, delimiter: char, i: nat, result: seq<string>, current: string, inQuotes: bool)
    requires Reading(line, delimiter, i, result, current, inQuotes) && i < |line| && line[i] != QUOTE
    ensures if line[i] == delimiter && !inQuotes then Reading(line, delimiter, i + 1, result + [current], "", inQuotes)
            else Reading(line, delimiter, i + 1, result, current + [line[i]], inQuotes)
  {
    OneMoreCharacter(line, i);
    LastField(result, current, line[i]);
  }

  lemma {:induction false} RestByParity(line: string, delimiter: char, i: nat, result: seq<string>, current: string,
                                        inQuotes: bool)
    requires Reading(line, delimiter, i, result, current, inQuotes)
    ensures result + Fields(line[i..], delimiter, current, inQuotes) == FieldsByParity(line, delimiter, |line|)
    decreases |line| - i
  {
    if i < |line| {
      var rest := line[i..];
      assert rest[0] == line[i] && rest[1..] == line[i + 1..];
      if line[i] != QUOTE {
        OtherRead(line, delimiter, i, result, current, inQuotes);
        if line[i] == delimiter && !inQuotes {
          RestByParity(line, delimiter, i + 1, result + [current], "", inQuotes);
          assert result + [current] + Fields(rest[1..], delimiter, "", inQuotes)
                 == result + ([current] + Fields(rest[1..], delimiter, "", inQuotes));
        } else {
          RestByParity(line, delimiter, i + 1, result, current + [line[i]], inQuotes);
        }
      } else if inQuotes && i + 1 < |line| && line[i + 1] == QUOTE {
        assert rest[1] == QUOTE && rest[2..] == line[i + 2..];
        PairRead(line, delimiter, i, result, current);
        RestByParity(line, delimiter, i + 2, result, current + [QUOTE], true);
      } else {
        assert i + 1 < |line| ==> rest[1] == line[i + 1];
        QuoteRead(line, delimiter, i, result, current, inQuotes);
        RestByParity(line, delimiter, i + 1, result, current, !inQuotes);
      }
    }
  }

  /**
   Every line, well-formed or not, is split exactly at the delimiters that have an even number of quotes before them,
   and of its quotes exactly those are kept that follow another one with an odd number before it.
   */
  lemma LineIsReadByParity(line: string, delimiter: char)
    ensures Fields(line, delimiter, "", false) == FieldsByParity(line, delimiter, |line|)
  {
    assert line[..0] == "" && line[0..] == line;
    assert FieldsByParity(line, delimiter, 0) == [] + [""];
    RestByParity(line, delimiter, 0, [], "", false);
    assert [] + Fields(line, delimiter, "", false) == Fields(line, delimiter, "", false);
  }

  // Printing

  /** A field's text with every quote doubled. */
  function Doubled(field: string): string {
    if field == "" then ""
    else (if field[0] == QUOTE then [QUOTE, QUOTE] else [field[0]]) + Doubled(field[1..])
  }

  /** A field to print, and whether it is printed inside quotes. */
  datatype Cell = Cell(text: string, quoted: bool) {
    /** Only a field without quotes and delimiters may be printed bare. */
    predicate Printable(delimiter: char) {
      quoted || (QUOTE !in text && delimiter !in text)
    }

    function Print(): string {
      if quoted then [QUOTE] + Doubled(text) + [QUOTE] else text
    }
  }

  function PrintLine(cells: seq<Cell>, delimiter: char): string
    requires |cells| >= 1
  {
    if |cells| == 1 then cells[0].Print()
    else cells[0].Print() + [delimiter] + PrintLine(cells[1..], delimiter)
  }

  function Texts(cells: seq<Cell>): (texts: seq<string>)
    ensures |texts| == |cells|
  {
    if cells == [] then [] else [cells[0].text] + Texts(cells[1..])
  }

  /** Between quotes, a printed field is read back character by character up to its closing quote. */
  lemma {:induction false} ReadQuoted(text: string, tail: string, delimiter: char, current: string)
    requires tail == "" || tail[0] != QUOTE
    ensures Fields(Doubled(text) + [QUOTE] + tail, delimiter, current, true)
            == Fields(tail, delimiter, current + text, false)
  {
    var all := Doubled(text) + [QUOTE] + tail;
    if text == "" {
      assert all == [QUOTE] + tail;
      assert all[1..] == tail;
      assert current + text == current;
    } else {
      var c := text[0];
      var rest := Doubled(text[1..]) + [QUOTE] + tail;
      ReadQuoted(text[1..], tail, delimiter, current + [c]);
      assert current + [c] + text[1..] == current + text;
      if c == QUOTE {
        assert all == [QUOTE, QUOTE] + rest;
        assert all[2..] == rest;
      } else {
        assert all == [c] + rest;
        assert all[1..] == rest;
      }
    }
  }

  /** Outside quotes, text without quotes and delimiters is copied. */
  lemma {:induction false} ReadBare(text: string, tail: string, delimiter: char, current: string)
    requires QUOTE !in text && delimiter !in text
    ensures Fields(text + tail, delimiter, current, false) == Fields(tail, delimiter, current + text, false)
  {
    if text == "" {
      assert text + tail == tail && current + text == current;
    } else {
      ReadBare(text[1..], tail, delimiter, current + [text[0]]);
      assert (text + tail)[1..] == text[1..] + tail;
      assert current + [text[0]] + text[1..] == current + text;
    }
  }

  lemma ReadCell(cell: Cell, tail: string, delimiter: char)
    requires cell.Printable(delimiter)
    requires tail == "" || tail[0] != QUOTE
    ensures Fields(cell.Print() + tail, delimiter, "", false) == Fields(tail, delimiter, cell.text, false)
  {
    assert "" + cell.text == cell.text;
    if cell.quoted {
      ReadQuoted(cell.text, tail, delimiter, "");
      var all := cell.Print() + tail;
      assert all == [QUOTE] + (Doubled(cell.text) + [QUOTE] + tail);
      assert all[1..] == Doubled(cell.text) + [QUOTE] + tail;
    } else {
      ReadBare(cell.text, tail, delimiter, "");
    }
  }

  /** Parsing a printed line gives back its fields, whichever fields were quoted. */
  lemma {:induction false} RoundTrip(cells: seq<Cell>, delimiter: char)
    requires |cells| >= 1 && delimiter != QUOTE
    requires forall i :: 0 <= i < |cells| ==> cells[i].Printable(delimiter)
    ensures Fields(PrintLine(cells, delimiter), delimiter, "", false) == Texts(cells)
  {
    if |cells| == 1 {
      ReadCell(cells[0], "", delimiter);
      assert cells[0].Print() + "" == cells[0].Print();
      assert cells[1..] == [];
    } else {
      var rest := PrintLine(cells[1..], delimiter);
      var tail := [delimiter] + rest;
      ReadCell(cells[0], tail, delimiter);
      assert PrintLine(cells, delimiter) == cells[0].Print() + tail;
      assert tail[1..] == rest;
      RoundTrip(cells[1..], delimiter);
    }
  }

  /** With the quote itself as delimiter the quote branch always wins and nothing is ever split. */
  lemma {:induction false} QuoteNeverSplits(rest: string, current: string, inQuotes: bool)
    ensures |Fields(rest, QUOTE, current, inQuotes)| == 1
    decreases |rest|
  {
    if rest != "" {
      if rest[0] == QUOTE {
        if inQuotes && |rest| > 1 && rest[1] == QUOTE {
          QuoteNeverSplits(rest[2..], current + [QUOTE], inQuotes);
        } else {
          QuoteNeverSplits(rest[1..], current, !inQuotes);
        }
      } else {
        QuoteNeverSplits(rest[1..], current + [rest[0]], inQuotes);
      }
    }
  }

  /** The round trip holds for exactly the delimiters other than the quote, or for one field. */
  lemma RoundTripExactly(cells: seq<Cell>, delimiter: char)
    requires |cells| >= 1
    requires forall i :: 0 <= i < |cells| ==> cells[i].Printable(delimiter)
    ensures Fields(PrintLine(cells, delimiter), delimiter, "", false) == Texts(cells)
            <==> delimiter != QUOTE || |cells| == 1
  {
    if delimiter != QUOTE {
      RoundTrip(cells, delimiter);
    } else if |cells| == 1 {
      ReadCell(cells[0], "", delimiter);
      assert cells[0].Print() + "" == cells[0].Print();
      assert cells[1..] == [];
    } else {
      QuoteNeverSplits(PrintLine(cells, QUOTE), "", false);
    }
  }
}
