/** The CDATA sections and comments of the XML dump, and the rules of XML 1.0 by which they are read.
    A text is followed by a NUL in memory, which the printers look at. */
module XmlPrinting {

  const OPEN := "<![CDATA["

  predicate At(t: string, i: nat, c: char) { i < |t| && t[i] == c }

  predicate StartsClose(t: string) { At(t, 0, ']') && At(t, 1, ']') && At(t, 2, '>') }

  // ----- print_xml_cdata

  /** The text inside the section; a closing bracket is split over two sections. */
  function Split(t: string): string {
    if t == "" then ""
    else if StartsClose(t) then "]]]]><![CDATA[>" + Split(t[3..])
    else [t[0]] + Split(t[1..])
  }

  method PrintXmlCdata(str: string) returns (out: string)
    ensures out == "<![CDATA[\n" + Split(str) + "\n]]>\n"
  {
    out := "<![CDATA[\n";
    ghost var all := out + Split(str);
    var i := 0;
    assert str[0..] == str;
    hide Split;
    while i < |str|
      invariant 0 <= i <= |str| && out + Split(str[i..]) == all
    {
      SplitHead(str[i..]);
      if str[i] == ']' && At(str, i + 1, ']') && At(str, i + 2, '>') {
        assert str[i..][3..] == str[i + 3..];
        Regroup(out, "]]]]><![CDATA[>", Split(str[i + 3..]));
        out := out + "]]]]><![CDATA[>";
        i := i + 3;
      } else {
        assert str[i..][1..] == str[i + 1..];
        Regroup(out, [str[i]], Split(str[i + 1..]));
        out := out + [str[i]];
        i := i + 1;
      }
    }
    assert str[|str|..] == "";
    SplitHead("");
    out := out + "\n]]>\n";
  }

  lemma Regroup(a: string, b: string, c: string)
    ensures a + b + c == a + (b + c)
  {
  }

  lemma SplitHead(t: string)
    ensures Split(t) == if t == "" then ""
                        else if StartsClose(t) then "]]]]><![CDATA[>" + Split(t[3..]) else [t[0]] + Split(t[1..])
  {
  }

  // ----- how CDATA is read (section 2.7 of XML 1.0)

  datatype Read = Bad | Text(text: string, rest: string)

  function Prepend(c: char, r: Read): Read { if r.Text? then Text([c] + r.text, r.rest) else r }

  /** Inside a section: up to its end, and on into a section that follows at once. */
  function Inside(s: string): Read {
    if s == "" then Bad
    else if StartsClose(s) then if OPEN <= s[3..] then Inside(s[12..]) else Text("", s[3..])
    else Prepend(s[0], Inside(s[1..]))
  }

  lemma InsideChar(c: char, s: string)
    requires !StartsClose([c] + s)
    ensures Inside([c] + s) == Prepend(c, Inside(s))
  {
    assert ([c] + s)[1..] == s;
  }

  lemma InsideEnd(end: string, rest: string)
    requires end == "\n]]>" + rest && !(OPEN <= rest)
    ensures Inside(end) == Text("\n", rest)
  {
    var close := "]]>" + rest;
    assert end == ['\n'] + close;
    InsideChar('\n', close);
    assert close[3..] == rest;
  }

  /** The text for a closing bracket reads as that bracket. */
  lemma InsideSplit(s: string)
    ensures Inside("]]]]><![CDATA[>" + s) == Prepend(']', Prepend(']', Prepend('>', Inside(s))))
  {
    hide Inside;
    var a := "]]><![CDATA[>" + s;
    assert "]]]]><![CDATA[>" + s == [']'] + ([']'] + a);
    InsideChar(']', [']'] + a);
    InsideChar(']', a);
    InsideNext(s);
    InsideChar('>', s);
  }

  lemma InsideNext(s: string)
    ensures Inside("]]><![CDATA[>" + s) == Inside(['>'] + s)
  {
    var a := "]]><![CDATA[>" + s;
    assert a[3..] == OPEN + (['>'] + s);
    assert a[12..] == ['>'] + s;
  }

  /** No closing bracket arises where the text has none. */
  lemma NoNewClose(t: string, end: string)
    requires t != "" && !StartsClose(t) && !At(end, 0, ']') && !At(end, 0, '>')
    ensures !StartsClose([t[0]] + (Split(t[1..]) + end))
  {
    if t[0] == ']' {
      SplitHead(t[1..]);
      if |t| > 1 && t[1] == ']' && !StartsClose(t[1..]) {
        SplitHead(t[1..][1..]);
        assert |t| > 2 ==> t[2] != '>';
      }
    }
  }

  /** The section gives back the text, whatever it is, and what its end gives. */
  lemma {:induction false} SplitReadsBack(t: string, end: string, rest: string)
    requires Inside(end) == Text("\n", rest) && !At(end, 0, ']') && !At(end, 0, '>')
    ensures Inside(Split(t) + end) == Text(t + "\n", rest)
    decreases |t|
  {
    hide Inside, Split, Prepend;
    SplitHead(t);
    if t == "" {
      assert Split(t) + end == end && t + "\n" == "\n";
    } else if StartsClose(t) {
      Regroup("]]]]><![CDATA[>", Split(t[3..]), end);
      InsideSplit(Split(t[3..]) + end);
      SplitReadsBack(t[3..], end, rest);
      PrependClose(t, rest);
    } else {
      Regroup([t[0]], Split(t[1..]), end);
      NoNewClose(t, end);
      InsideChar(t[0], Split(t[1..]) + end);
      SplitReadsBack(t[1..], end, rest);
      PrependFirst(t, rest);
    }
  }

  lemma PrependFirst(t: string, rest: string)
    requires t != ""
    ensures Prepend(t[0], Text(t[1..] + "\n", rest)) == Text(t + "\n", rest)
  {
    assert [t[0]] + (t[1..] + "\n") == t + "\n";
  }

  lemma PrependClose(t: string, rest: string)
    requires StartsClose(t)
    ensures Prepend(']', Prepend(']', Prepend('>', Text(t[3..] + "\n", rest)))) == Text(t + "\n", rest)
  {
    assert [']'] + ([']'] + (['>'] + (t[3..] + "\n"))) == t + "\n";
  }

  lemma AfterOpen(body: string)
    ensures OPEN <= "<![CDATA[\n" + body && ("<![CDATA[\n" + body)[|OPEN|..] == ['\n'] + body
  {
  }

  /** What is printed starts a section, and reading it gives the text between two newlines. */
  lemma CdataReadsBack(str: string)
    ensures var out := "<![CDATA[\n" + Split(str) + "\n]]>\n";
            OPEN <= out && Inside(out[|OPEN|..]) == Text("\n" + str + "\n", "\n")
  {
    hide Inside, Split;
    var body := Split(str) + "\n]]>\n";
    Regroup("<![CDATA[\n", Split(str), "\n]]>\n");
    AfterOpen(body);
    InsideChar('\n', body);
    InsideEnd("\n]]>\n", "\n");
    SplitReadsBack(str, "\n]]>\n", "\n");
    assert ['\n'] + (str + "\n") == "\n" + str + "\n";
  }

  // ----- print_xml_comment

  /** A hyphen before another hyphen is dropped. */
  function Squeezed(t: string): string {
    if t == "" then ""
    else if t[0] == '-' && At(t, 1, '-') then Squeezed(t[1..])
    else [t[0]] + Squeezed(t[1..])
  }

  method PrintXmlComment(str: string) returns (out: string)
    ensures out == "<!-- " + Squeezed(str) + " -->\n"
  {
    out := "<!-- ";
    ghost var all := out + Squeezed(str);
    assert str[0..] == str;
    hide Squeezed;
    for i := 0 to |str|
      invariant out + Squeezed(str[i..]) == all
    {
      SqueezedHead(str[i..]);
      assert str[i..][1..] == str[i + 1..];
      if !(str[i] == '-' && At(str, i + 1, '-')) {
        assert out + ([str[i]] + Squeezed(str[i + 1..])) == out + [str[i]] + Squeezed(str[i + 1..]);
        out := out + [str[i]];
      }
    }
    assert str[|str|..] == "";
    SqueezedHead("");
    out := out + " -->\n";
  }

  lemma SqueezedHead(t: string)
    ensures Squeezed(t) == if t == "" then ""
                           else if t[0] == '-' && At(t, 1, '-') then Squeezed(t[1..]) else [t[0]] + Squeezed(t[1..])
  {
  }

  predicate NoDouble(s: string) { forall i :: 0 <= i < |s| - 1 ==> !(s[i] == '-' && s[i + 1] == '-') }

  /** Each run of hyphens once: the definition from the left. `within` tells that a hyphen came before. */
  function Collapsed(t: string, within: bool): string {
    if t == "" then ""
    else if t[0] == '-' then (if within then "" else "-") + Collapsed(t[1..], true)
    else [t[0]] + Collapsed(t[1..], false)
  }

  lemma {:induction false} SqueezedIsCollapsed(t: string)
    ensures Squeezed(t) == Collapsed(t, false)
    ensures At(t, 0, '-') ==> Squeezed(t) == "-" + Collapsed(t, true)
  {
    if t == "" {
    } else {
      SqueezedIsCollapsed(t[1..]);
      assert At(t, 1, '-') <==> At(t[1..], 0, '-');
      if t[0] == '-' && !At(t, 1, '-') {
        assert t[1..] == "" || t[1] != '-';
        assert Collapsed(t[1..], true) == Collapsed(t[1..], false);
        assert "" + Collapsed(t[1..], true) == Collapsed(t[1..], true);
      }
    }
  }

  lemma {:induction false} SqueezedNoDouble(t: string)
    ensures NoDouble(Squeezed(t)) && (At(Squeezed(t), 0, '-') <==> At(t, 0, '-'))
  {
    if t == "" {
    } else {
      SqueezedNoDouble(t[1..]);
      var rest := Squeezed(t[1..]);
      if !(t[0] == '-' && At(t, 1, '-')) {
        var s := [t[0]] + rest;
        forall i | 0 <= i < |s| - 1
          ensures !(s[i] == '-' && s[i + 1] == '-')
        {
          assert i > 0 ==> s[i] == rest[i - 1] && s[i + 1] == rest[i];
        }
      }
    }
  }

  /** Between the comment's marks there is no double hyphen, so it ends at its own end mark (section
      2.5 of XML 1.0), and every run of hyphens of the text is one hyphen. */
  lemma CommentIsWellFormed(str: string)
    ensures NoDouble(" " + Squeezed(str) + " ")
    ensures Squeezed(str) == Collapsed(str, false)
  {
    SqueezedNoDouble(str);
    SqueezedIsCollapsed(str);
  }
}
