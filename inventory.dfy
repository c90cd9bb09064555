/** The inventory parser run when `Msg::InventoryLoaded(data)` arrives
    (src/lib.rs:120-125): split the body on "\n", keep the lines that are
    not group headers and not empty, and reduce each kept line to its
    host name, the part before the first space. */
module Inventory {
  import opened Text

  /** The line filter of the parse chain, test for test: it must not start
      with "[", must differ from "\n" and must have a positive byte length. */
  predicate Keep(line: string)
  {
    !("[" <= line) && line != "\n" && Utf8Len(line) > 0
  }

  /** The lines that pass `Keep`, in their original order. */
  function Kept(lines: seq<string>): seq<string>
  {
    if |lines| == 0 then []
    else (if Keep(lines[0]) then [lines[0]] else []) + Kept(lines[1..])
  }

  /** `line.split(" ").take(1).collect::<String>()`: the first piece of the
      line split on a space. */
  function HostOf(line: string): string
  {
    Split(line, ' ')[0]
  }

  /** Every line reduced to its host name, one entry per line. */
  function Hosts(lines: seq<string>): (hosts: seq<string>)
    ensures |hosts| == |lines|
  {
    if |lines| == 0 then [] else [HostOf(lines[0])] + Hosts(lines[1..])
  }

  /** Entry `i` of the hosts is the host of line `i`. */
  lemma {:induction false} HostsAt(lines: seq<string>, i: nat)
    requires i < |lines|
    ensures Hosts(lines)[i] == HostOf(lines[i])
  {
    if i > 0 {
      HostsAt(lines[1..], i - 1);
    }
  }

  /** Mapping lines to hosts commutes with concatenation. */
  lemma {:induction false} HostsConcat(a: seq<string>, b: seq<string>)
    ensures Hosts(a + b) == Hosts(a) + Hosts(b)
  {
    if |a| == 0 {
      assert a + b == b;
    } else {
      assert (a + b)[0] == a[0];
      assert (a + b)[1..] == a[1..] + b;
      HostsConcat(a[1..], b);
    }
  }

  /** The hosts of a list of lines: filter, then map. */
  function ParseLines(lines: seq<string>): seq<string>
  {
    Hosts(Kept(lines))
  }

  /** The whole pipeline applied to a response body. */
  function Parse(data: string): seq<string>
  {
    ParseLines(Split(data, '\n'))
  }

  /** The `line != "\n"` test never rejects a piece of a split on "\n":
      no piece contains a newline. */
  lemma NewlineTestNeverRejects(data: string, i: nat)
    requires i < |Split(data, '\n')|
    ensures Split(data, '\n')[i] != "\n"
  {
    assert "\n"[0] == '\n';
  }

  /** On the pieces of a split on "\n", `Keep` means exactly: non-empty
      and not starting with "[". */
  lemma KeepPiece(line: string)
    requires '\n' !in line
    ensures Keep(line) <==> |line| > 0 && line[0] != '['
  {
    if |line| > 0 && line[0] == '[' {
      assert "[" == line[..1];
    }
    assert '\n' in "\n";
  }

  /** A line is kept exactly when it occurs among the lines and passes
      `Keep`. */
  lemma {:induction false} KeptMembers(lines: seq<string>, x: string)
    ensures x in Kept(lines) <==> x in lines && Keep(x)
  {
    if |lines| > 0 {
      KeptMembers(lines[1..], x);
      assert lines == [lines[0]] + lines[1..];
    }
  }

  /** Filtering commutes with concatenation, so it preserves the order of
      the lines it keeps. */
  lemma {:induction false} KeptConcat(a: seq<string>, b: seq<string>)
    ensures Kept(a + b) == Kept(a) + Kept(b)
  {
    if |a| == 0 {
      assert a + b == b;
    } else {
      assert (a + b)[0] == a[0];
      assert (a + b)[1..] == a[1..] + b;
      KeptConcat(a[1..], b);
    }
  }

  /** The parse of a list of lines is the concatenation of the parses of
      its parts: one entry per kept line, in the original order. */
  lemma ParseLinesConcat(a: seq<string>, b: seq<string>)
    ensures ParseLines(a + b) == ParseLines(a) + ParseLines(b)
  {
    KeptConcat(a, b);
    HostsConcat(Kept(a), Kept(b));
  }

  /** A single line yields its host when it is kept and nothing otherwise. */
  lemma ParseLine(line: string)
    requires '\n' !in line
    ensures ParseLines([line]) ==
              if |line| > 0 && line[0] != '[' then [HostOf(line)] else []
  {
    KeepPiece(line);
    assert Kept([line]) == (if Keep(line) then [line] else []) + Kept([]);
  }

  /** The host of a line is its prefix before the first space, or the
      whole line when it has none. */
  lemma HostOfIsFirstField(line: string)
    ensures HostOf(line) <= line
    ensures ' ' !in HostOf(line)
    ensures |HostOf(line)| < |line| ==> line[|HostOf(line)|] == ' '
    ensures HostOf(line) == line <==> ' ' !in line
    ensures |line| > 0 && line[0] == ' ' ==> HostOf(line) == ""
  {
    var pieces := Split(line, ' ');
    var h := pieces[0];
    JoinSplit(line, ' ');
    if |pieces| > 1 {
      assert line == h + [' '] + Join(pieces[1..], ' ');
      assert line[|h|] == ' ';
    }
  }

  /** Entry `i` of the parse is the host of the `i`-th kept line. */
  lemma ParseEntry(data: string, i: nat)
    requires i < |Parse(data)|
    ensures |Parse(data)| == |Kept(Split(data, '\n'))|
    ensures Parse(data)[i] == HostOf(Kept(Split(data, '\n'))[i])
    ensures ' ' !in Parse(data)[i]
  {
    HostsAt(Kept(Split(data, '\n')), i);
    HostOfIsFirstField(Kept(Split(data, '\n'))[i]);
  }

  /** A five-line body parses to the concatenation of its lines' parses. */
  lemma ParseFiveLines(a: string, b: string, c: string, d: string, e: string)
    ensures ParseLines([a, b, c, d, e]) ==
              ParseLines([a]) + ParseLines([b]) + ParseLines([c]) + ParseLines([d]) + ParseLines([e])
  {
    ParseLinesConcat([a], [b]);
    ParseLinesConcat([a, b], [c]);
    ParseLinesConcat([a, b, c], [d]);
    ParseLinesConcat([a, b, c, d], [e]);
    assert [a] + [b] == [a, b];
    assert [a, b] + [c] == [a, b, c];
    assert [a, b, c] + [d] == [a, b, c, d];
    assert [a, b, c, d] + [e] == [a, b, c, d, e];
  }

  lemma ExampleShape(a: string, b: string, c: string, d: string, e: string, hb: string, hc: string)
    requires ParseLines([a]) == [] && ParseLines([b]) == [hb] && ParseLines([c]) == [hc]
    requires ParseLines([d]) == [] && ParseLines([e]) == []
    ensures ParseLines([a, b, c, d, e]) == [hb, hc]
  {
    ParseFiveLines(a, b, c, d, e);
  }

  /** Group headers and blank lines are skipped and trailing fields dropped. */
  lemma ParseExample()
    ensures Parse("[group]\nweb01 extra\nweb02\n\n") == ["web01", "web02"]
  {
    ExampleSplit();
    ExampleHeaderSkipped();
    ExampleBlankSkipped();
    ExampleFirstHost();
    ExampleSecondHost();
    ExampleHostLines();
    ExampleShape("[group]", "web01 extra", "web02", "", "", "web01", "web02");
  }

  lemma ExampleHeaderSkipped()
    ensures ParseLines(["[group]"]) == []
  {
    ParseLine("[group]");
  }

  lemma ExampleBlankSkipped()
    ensures ParseLines([""]) == []
  {
    ParseLine("");
  }

  lemma ExampleHostLines()
    requires HostOf("web01 extra") == "web01" && HostOf("web02") == "web02"
    ensures ParseLines(["web01 extra"]) == ["web01"] && ParseLines(["web02"]) == ["web02"]
  {
    ParseHostLine("web01 extra", "web01");
    ParseHostLine("web02", "web02");
  }

  /** A kept line whose host is known parses to that host alone. */
  lemma ParseHostLine(line: string, host: string)
    requires '\n' !in line && |line| > 0 && line[0] != '['
    requires HostOf(line) == host
    ensures ParseLines([line]) == [host]
  {
    ParseLine(line);
  }

  lemma ExampleSplit()
    ensures Split("[group]\nweb01 extra\nweb02\n\n", '\n') == ["[group]", "web01 extra", "web02", "", ""]
  {
    var lines := ["[group]", "web01 extra", "web02", "", ""];
    assert Join(lines, '\n') == "[group]\nweb01 extra\nweb02\n\n";
    SplitJoin(lines, '\n');
  }

  lemma ExampleFirstHost()
    ensures HostOf("web01 extra") == "web01"
  {
    assert Join(["web01", "extra"], ' ') == "web01 extra";
    SplitJoin(["web01", "extra"], ' ');
  }

  lemma ExampleSecondHost()
    ensures HostOf("web02") == "web02"
  {
    SplitWithoutSep("web02", ' ');
  }

  /** With CRLF input the carriage return stays part of the host. */
  lemma ParseKeepsCarriageReturn()
    ensures Parse("web01\r\n") == ["web01\r"]
  {
    assert Join(["web01\r", ""], '\n') == "web01\r\n";
    SplitJoin(["web01\r", ""], '\n');
    SplitWithoutSep("web01\r", ' ');
    ParseLine("web01\r");
    ParseLine("");
    ParseLinesConcat(["web01\r"], [""]);
    assert ["web01\r"] + [""] == ["web01\r", ""];
  }

  /** A line with a leading space yields an empty host name. */
  lemma ParseLeadingSpaceHost()
    ensures Parse(" web02") == [""]
  {
    SplitWithoutSep(" web02", '\n');
    ParseLine(" web02");
    HostOfIsFirstField(" web02");
  }
}
