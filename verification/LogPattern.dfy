/** The pattern scanner of the log formatter: what it makes of a pattern, exactly
    when that loses nothing, and which lists of items it recovers from their
    printed form. */
module LogPattern {

  /** A piece of a scanned pattern: literal text, or a directive with its format. */
  datatype Item = Text(text: string) | Directive(name: string, fmt: string)

  const ERROR := Text("<<pattern_error>>")

  /** isalpha in the C locale. */
  predicate Alpha(c: char) { 'a' <= c <= 'z' || 'A' <= c <= 'Z' }

  predicate InName(c: char) { Alpha(c) || c == '}' }

  predicate InFmt(c: char) { Alpha(c) || c == '{' }

  /** Length of the longest prefix of name characters. */
  function NameLen(s: string): (n: nat)
    ensures n <= |s| && (forall k :: 0 <= k < n ==> InName(s[k])) && (n < |s| ==> !InName(s[n]))
  {
    if s == "" || !InName(s[0]) then 0 else 1 + NameLen(s[1..])
  }

  function FmtLen(s: string): (n: nat)
    ensures n <= |s| && (forall k :: 0 <= k < n ==> InFmt(s[k])) && (n < |s| ==> !InFmt(s[n]))
  {
    if s == "" || !InFmt(s[0]) then 0 else 1 + FmtLen(s[1..])
  }

  /** What follows a percent sign: a name, a name with a format in braces, or a
      brace that is not closed in time; and what is left behind it. */
  datatype Head = Bare(name: string, rest: string) | Full(name: string, fmt: string, rest: string) | Broken

  function HeadOf(s: string): (h: Head)
    ensures !h.Broken? ==> |h.rest| <= |s|
  {
    var j := NameLen(s);
    if j < |s| && s[j] == '{' then
      var k := j + 1 + FmtLen(s[j + 1..]);
      if k < |s| && s[k] == '}' then Full(s[..j], s[j + 1..k], s[k + 1..]) else Broken
    else Bare(s[..j], s[j..])
  }

  function Flushed(text: string): seq<Item> { if text == "" then [] else [Text(text)] }

  /** Whether the percent sign at the start of s opens a directive. */
  predicate Opens(s: string)
  {
    s != "" && s[0] == '%' && !(|s| > 1 && s[1] == '%')
  }

  /** The items of pattern s behind pending text. Before a second percent sign the
      first is text and the second opens a directive all the same; after an
      unclosed brace scanning goes on inside it. */
  function Scan(s: string, text: string): seq<Item>
    decreases |s|
  {
    if s == "" then Flushed(text)
    else if !Opens(s) then Scan(s[1..], text + [s[0]])
    else
      match HeadOf(s[1..])
      case Bare(name, rest) => Flushed(text) + [Directive(name, "")] + Scan(rest, "")
      case Full(name, fmt, rest) => Flushed(text) + [Directive(name, fmt)] + Scan(rest, "")
      case Broken => [ERROR] + Scan(s[1..], text)
  }

  /** Unclosed braces met on the way. */
  function Errors(s: string): nat
    decreases |s|
  {
    if s == "" then 0
    else if !Opens(s) then Errors(s[1..])
    else
      match HeadOf(s[1..])
      case Bare(_, rest) => Errors(rest)
      case Full(_, _, rest) => Errors(rest)
      case Broken => 1 + Errors(s[1..])
  }

  /** Empty formats met on the way. */
  function Empties(s: string): nat
    decreases |s|
  {
    if s == "" then 0
    else if !Opens(s) then Empties(s[1..])
    else
      match HeadOf(s[1..])
      case Bare(_, rest) => Empties(rest)
      case Full(_, fmt, rest) => (if fmt == "" then 1 else 0) + Empties(rest)
      case Broken => Empties(s[1..])
  }

  // ----- printing -----

  /** An item in front of what follows it. */
  function PrintOnto(i: Item, rest: string): string
  {
    match i
    case Text(t) => t + rest
    case Directive(name, fmt) => "%" + (name + if fmt == "" then rest else Braced(fmt, rest))
  }

  function Braced(fmt: string, rest: string): string { "{" + (fmt + ("}" + rest)) }

  function Print(items: seq<Item>): string
  {
    if items == [] then "" else PrintOnto(items[0], Print(items[1..]))
  }

  lemma PrintFlushed(text: string, i: Item, more: seq<Item>)
    ensures Print(Flushed(text) + [i] + more) == text + PrintOnto(i, Print(more))
  {
    hide PrintOnto;
    assert ([i] + more)[1..] == more;
    if text == "" {
      assert Flushed(text) + [i] + more == [i] + more;
    } else {
      assert (Flushed(text) + [i] + more)[1..] == [i] + more;
      PrintText(text, [i] + more);
    }
  }

  lemma PrintText(text: string, more: seq<Item>)
    ensures Print([Text(text)] + more) == text + Print(more)
  {
    assert ([Text(text)] + more)[1..] == more;
  }

  lemma SplitBraces(s: string, j: nat, k: nat)
    requires j < k < |s| && s[j] == '{' && s[k] == '}'
    ensures s == s[..j] + Braced(s[j + 1..k], s[k + 1..])
  {
    var inside := s[j + 1..];
    assert inside == s[j + 1..k] + s[k..];
    assert s[k..] == "}" + s[k + 1..];
    assert s[j..] == "{" + inside;
    assert s == s[..j] + s[j..];
  }

  /** A head that is not broken stands in the pattern as it is printed, but for
      the braces of an empty format. */
  lemma HeadPrints(s: string)
    ensures match HeadOf(s)
            case Bare(name, rest) => s == name + rest
            case Full(name, fmt, rest) => s == name + Braced(fmt, rest)
            case Broken => true
  {
    hide NameLen, FmtLen, Braced, InName, InFmt;
    var j := NameLen(s);
    if HeadOf(s).Full? {
      SplitBraces(s, j, j + 1 + FmtLen(s[j + 1..]));
    } else {
      assert s == s[..j] + s[j..];
    }
  }

  /** The brace at j is still open at k, where neither the format nor the brace goes on. */
  predicate OpenFrom(s: string, j: nat, k: nat)
  {
    && j < k <= |s| && s[j] == '{'
    && (forall i :: 0 <= i < j ==> 'a' <= s[i] <= 'z' || 'A' <= s[i] <= 'Z' || s[i] == '}')
    && (forall i :: j < i < k ==> 'a' <= s[i] <= 'z' || 'A' <= s[i] <= 'Z' || s[i] == '{')
    && (k < |s| ==> !('a' <= s[k] <= 'z' || 'A' <= s[k] <= 'Z' || s[k] == '{' || s[k] == '}'))
  }

  /** A name is as many letters and closing braces as there are, a format as many
      letters and opening braces as there are between its braces. */
  lemma HeadIsMaximal(s: string)
    ensures match HeadOf(s)
            case Bare(name, rest) =>
              && (forall k :: 0 <= k < |name| ==> 'a' <= name[k] <= 'z' || 'A' <= name[k] <= 'Z' || name[k] == '}')
              && (rest != "" ==>
                    !('a' <= rest[0] <= 'z' || 'A' <= rest[0] <= 'Z' || rest[0] == '}' || rest[0] == '{'))
            case Full(name, fmt, rest) =>
              && (forall k :: 0 <= k < |name| ==> 'a' <= name[k] <= 'z' || 'A' <= name[k] <= 'Z' || name[k] == '}')
              && (forall k :: 0 <= k < |fmt| ==> 'a' <= fmt[k] <= 'z' || 'A' <= fmt[k] <= 'Z' || fmt[k] == '{')
            case Broken => exists j, k :: OpenFrom(s, j, k)
  {
    hide NameLen, FmtLen;
    if HeadOf(s).Broken? {
      StaysOpen(s, NameLen(s));
    }
  }

  lemma StaysOpen(s: string, j: nat)
    requires j < |s| && s[j] == '{' && forall i :: 0 <= i < j ==> InName(s[i])
    requires var k := j + 1 + FmtLen(s[j + 1..]); k < |s| ==> s[k] != '}'
    ensures OpenFrom(s, j, j + 1 + FmtLen(s[j + 1..]))
  {
    hide FmtLen;
    var f := s[j + 1..];
    assert forall i :: j < i < |s| ==> s[i] == f[i - j - 1];
  }

  // ----- when nothing is lost -----

  /** Counting along a pattern: the printed form is 16 characters longer for every
      unclosed brace, and 2 shorter for every empty format. */
  lemma {:induction false} PrintedLength(s: string, text: string)
    ensures |Print(Scan(s, text))| == |text| + |s| + 16 * Errors(s) - 2 * Empties(s)
    decreases |s|
  {
    hide HeadOf, PrintOnto;
    if s == "" {
      PrintText(text, []);
    } else if !Opens(s) {
      PrintedLength(s[1..], text + [s[0]]);
    } else {
      var t := s[1..];
      HeadPrints(t);
      match HeadOf(t)
      case Bare(name, rest) =>
        PrintedLength(rest, "");
        PrintFlushed(text, Directive(name, ""), Scan(rest, ""));
        OntoLength(Directive(name, ""), Print(Scan(rest, "")));
      case Full(name, fmt, rest) =>
        PrintedLength(rest, "");
        PrintFlushed(text, Directive(name, fmt), Scan(rest, ""));
        OntoLength(Directive(name, fmt), Print(Scan(rest, "")));
      case Broken =>
        PrintedLength(t, text);
        PrintText(ERROR.text, Scan(t, text));
    }
  }

  lemma OntoLength(i: Item, rest: string)
    requires i.Directive?
    ensures |PrintOnto(i, rest)| == 1 + |i.name| + |rest| + if i.fmt == "" then 0 else |i.fmt| + 2
  {
  }

  function Percents(s: string): nat { multiset(s)['%'] }

  lemma PercentsConcat(a: string, b: string)
    ensures Percents(a + b) == Percents(a) + Percents(b)
  {
  }

  lemma PercentsHead(c: char, s: string)
    ensures Percents([c] + s) == Percents(s) + if c == '%' then 1 else 0
  {
  }

  lemma OntoPercents(i: Item, rest: string)
    requires i.Directive?
    ensures Percents(PrintOnto(i, rest)) == 1 + Percents(i.name) + Percents(i.fmt) + Percents(rest)
  {
    hide Percents;
    assert Percents("") == 0 by { EmptyPercents(); }
    var tail := if i.fmt == "" then rest else Braced(i.fmt, rest);
    PercentsHead('%', i.name + tail);
    PercentsConcat(i.name, tail);
    if i.fmt != "" {
      BracedPercents(i.fmt, rest);
    }
  }

  lemma EmptyPercents()
    ensures Percents("") == 0
  {
  }

  lemma BracedPercents(fmt: string, rest: string)
    ensures Percents(Braced(fmt, rest)) == Percents(fmt) + Percents(rest)
  {
    hide Percents;
    PercentsHead('{', fmt + ("}" + rest));
    PercentsConcat(fmt, "}" + rest);
    PercentsHead('}', rest);
  }

  lemma HeadPercents(s: string)
    ensures match HeadOf(s)
            case Bare(name, rest) => Percents(s) == Percents(name) + Percents(rest)
            case Full(name, fmt, rest) => Percents(s) == Percents(name) + Percents(fmt) + Percents(rest)
            case Broken => true
  {
    hide Percents, HeadOf, Braced;
    HeadPrints(s);
    match HeadOf(s)
    case Bare(name, rest) => PercentsConcat(name, rest);
    case Full(name, fmt, rest) =>
      PercentsConcat(name, Braced(fmt, rest));
      BracedPercents(fmt, rest);
    case Broken =>
  }

  lemma NoPercents(s: string)
    requires '%' !in s
    ensures Percents(s) == 0
  {
  }

  lemma ErrorPercents()
    ensures Percents(ERROR.text) == 0
  {
    hide Percents;
    NoPercents(ERROR.text);
  }

  /** And it has one percent sign less for every unclosed brace. */
  lemma {:induction false} PrintedPercents(s: string, text: string)
    ensures Percents(Print(Scan(s, text))) == Percents(text) + Percents(s) - Errors(s)
    decreases |s|, 1
  {
    hide HeadOf, PrintOnto, Percents, Print;
    EmptyPercents();
    if s == "" {
      FlushedPrints(text);
    } else {
      assert s == [s[0]] + s[1..];
      PercentsHead(s[0], s[1..]);
      if !Opens(s) {
        PrintedPercents(s[1..], text + [s[0]]);
        PercentsConcat(text, [s[0]]);
        PercentsHead(s[0], "");
        assert [s[0]] + "" == [s[0]];
      } else {
        OpenPercents(s, text);
      }
    }
  }

  lemma FlushedPrints(text: string)
    ensures Print(Flushed(text)) == text
  {
    PrintText(text, []);
  }

  lemma {:induction false} OpenPercents(s: string, text: string)
    requires Opens(s)
    ensures Percents(Print(Scan(s, text))) == Percents(text) + 1 + Percents(s[1..]) - Errors(s)
    decreases |s|, 0
  {
    hide HeadOf, PrintOnto, Percents, Print;
    EmptyPercents();
    var t := s[1..];
    HeadPercents(t);
    match HeadOf(t)
    case Bare(name, rest) => DirectivePercents(Directive(name, ""), rest, text);
    case Full(name, fmt, rest) => DirectivePercents(Directive(name, fmt), rest, text);
    case Broken =>
      PrintedPercents(t, text);
      PrintText(ERROR.text, Scan(t, text));
      ErrorPercents();
      PercentsConcat(ERROR.text, Print(Scan(t, text)));
  }

  lemma {:induction false} DirectivePercents(i: Item, rest: string, text: string)
    requires i.Directive?
    ensures Percents(Print(Flushed(text) + [i] + Scan(rest, ""))) ==
            Percents(text) + 1 + Percents(i.name) + Percents(i.fmt) + Percents(rest) - Errors(rest)
    decreases |rest|, 2
  {
    hide Scan, PrintOnto, Percents, Print, Flushed;
    EmptyPercents();
    PrintedPercents(rest, "");
    PrintFlushed(text, i, Scan(rest, ""));
    OntoPercents(i, Print(Scan(rest, "")));
    PercentsConcat(text, PrintOnto(i, Print(Scan(rest, ""))));
  }

  /** Without unclosed braces and empty formats, what is printed so far and the
      pending text are together the pattern consumed so far. */
  lemma {:induction false} PrintedBack(s: string, text: string)
    requires Errors(s) == 0 && Empties(s) == 0
    ensures Print(Scan(s, text)) == text + s
    decreases |s|
  {
    hide HeadOf, Print, PrintOnto;
    if s == "" {
      FlushedPrints(text);
    } else if !Opens(s) {
      PrintedBack(s[1..], text + [s[0]]);
      Shift(text, s);
    } else {
      HeadPrints(s[1..]);
      match HeadOf(s[1..])
      case Bare(name, rest) =>
        PrintedBack(rest, "");
        PrintFlushed(text, Directive(name, ""), Scan(rest, ""));
        OntoBack(s, Directive(name, ""), rest);
      case Full(name, fmt, rest) =>
        PrintedBack(rest, "");
        PrintFlushed(text, Directive(name, fmt), Scan(rest, ""));
        OntoBack(s, Directive(name, fmt), rest);
      case Broken =>
    }
  }

  lemma Shift(text: string, s: string)
    requires s != ""
    ensures text + [s[0]] + s[1..] == text + s
  {
  }

  lemma OntoBack(s: string, i: Item, rest: string)
    requires Opens(s) && i.Directive? && s[1..] == i.name + if i.fmt == "" then rest else Braced(i.fmt, rest)
    ensures PrintOnto(i, "" + rest) == s
  {
    assert "" + rest == rest;
    assert s == "%" + s[1..];
  }

  /** A brace behind a percent sign and name characters is closed after one or
      more format characters. */
  ghost predicate Closes(t: string)
  {
    forall j :: 0 <= j < |t| && t[j] == '{' && (forall k :: 0 <= k < j ==> InName(t[k])) ==> ClosesAt(t, j)
  }

  ghost predicate ClosesAt(t: string, j: nat)
  {
    exists k :: j + 1 < k < |t| && t[k] == '}' && forall m :: j < m < k ==> InFmt(t[m])
  }

  /** Every directive of the pattern closes its brace, if it opens one. */
  ghost predicate WellFormed(s: string)
  {
    forall i :: 0 <= i < |s| && Opens(s[i..]) ==> Closes(s[i + 1..])
  }

  lemma ClosesIff(t: string)
    ensures Closes(t) <==>
            match HeadOf(t)
            case Bare(_, _) => true
            case Full(_, fmt, _) => fmt != ""
            case Broken => false
  {
    var j := NameLen(t);
    assert forall i :: 0 <= i < |t| && t[i] == '{' && (forall k :: 0 <= k < i ==> InName(t[k])) ==> i == j;
    if j < |t| && t[j] == '{' {
      ClosesAtIff(t, j);
    }
  }

  lemma ClosesAtIff(t: string, j: nat)
    requires j < |t|
    ensures var k := j + 1 + FmtLen(t[j + 1..]);
            ClosesAt(t, j) <==> j + 1 < k < |t| && t[k] == '}'
  {
    var f := t[j + 1..];
    var k := j + 1 + FmtLen(f);
    assert forall m :: j < m < |t| ==> t[m] == f[m - j - 1];
    if ClosesAt(t, j) {
      var e :| j + 1 < e < |t| && t[e] == '}' && forall m :: j < m < e ==> InFmt(t[m]);
      assert !InFmt(f[e - j - 1]);
      assert k == e;
    }
  }

  lemma WellFormedTail(s: string, m: nat)
    requires 1 <= m <= |s| && forall i :: 0 < i < m ==> s[i] != '%'
    ensures WellFormed(s) <==> (Opens(s) ==> Closes(s[1..])) && WellFormed(s[m..])
  {
    hide Closes;
    var t := s[m..];
    assert s[0..] == s;
    assert forall i :: 0 <= i <= |t| ==> t[i..] == s[m + i..];
    if (Opens(s) ==> Closes(s[1..])) && WellFormed(t) {
      forall i | 0 <= i < |s| && Opens(s[i..])
        ensures Closes(s[i + 1..])
      {
        if i >= m {
          assert t[i - m..] == s[i..] && t[i - m + 1..] == s[i + 1..];
        }
      }
    }
    if WellFormed(s) {
      forall i | 0 <= i < |t| && Opens(t[i..])
        ensures Closes(t[i + 1..])
      {
        assert Opens(s[m + i..]);
      }
    }
  }

  lemma {:induction false} WellFormedIff(s: string)
    ensures WellFormed(s) <==> Errors(s) == 0 && Empties(s) == 0
    decreases |s|
  {
    hide Closes, NameLen, FmtLen, WellFormed, InName, InFmt;
    if s == "" {
      assert WellFormed(s) by { EmptyIsWellFormed(); }
    } else if !Opens(s) {
      WellFormedTail(s, 1);
      WellFormedIff(s[1..]);
    } else {
      ClosesIff(s[1..]);
      match HeadOf(s[1..])
      case Bare(_, rest) => HeadTail(s, rest);
                            WellFormedIff(rest);
      case Full(_, _, rest) => HeadTail(s, rest);
                               WellFormedIff(rest);
      case Broken => WellFormedTail(s, 1);
    }
  }

  lemma EmptyIsWellFormed()
    ensures WellFormed("")
  {
  }

  lemma HeadTail(s: string, rest: string)
    requires Opens(s) && !HeadOf(s[1..]).Broken? && rest == HeadOf(s[1..]).rest
    ensures WellFormed(s) <==> Closes(s[1..]) && WellFormed(rest)
  {
    hide Closes, WellFormed;
    var t := s[1..];
    var m := |s| - |rest|;
    assert rest == s[m..];
    forall i | 0 < i < m
      ensures s[i] != '%'
    {
      assert s[i] == t[i - 1];
    }
    WellFormedTail(s, m);
  }

  /** The scan loses nothing of a pattern exactly when every directive that opens
      a brace closes it after at least one letter. */
  lemma LosslessIff(s: string)
    ensures Print(Scan(s, "")) == s <==> WellFormed(s)
  {
    hide Scan, Print, Errors, Empties, WellFormed, Percents;
    EmptyPercents();
    WellFormedIff(s);
    PrintedLength(s, "");
    PrintedPercents(s, "");
    if Errors(s) == 0 && Empties(s) == 0 {
      PrintedBack(s, "");
      assert "" + s == s;
    }
  }

  // ----- printing and scanning back -----

  predicate ItemOk(i: Item)
  {
    match i
    case Text(t) => t != "" && '%' !in t
    case Directive(name, fmt) =>
      (forall k :: 0 <= k < |name| ==> InName(name[k])) && (forall k :: 0 <= k < |fmt| ==> InFmt(fmt[k]))
  }

  /** No two texts in a row, and nothing behind a directive without a format that
      would be read as part of it. */
  predicate CanFollow(a: Item, b: Item)
  {
    match a
    case Text(_) => b.Directive?
    case Directive(name, fmt) =>
      fmt == "" ==>
        match b
        case Text(t) => t != "" && !InName(t[0]) && t[0] != '{'
        case Directive(_, _) => name != ""
  }

  predicate Canonical(items: seq<Item>)
  {
    items == [] ||
    (ItemOk(items[0]) && (|items| > 1 ==> CanFollow(items[0], items[1])) && Canonical(items[1..]))
  }

  /** What follows a bare directive does not belong to it. */
  predicate Stops(name: string, rest: string)
  {
    rest == "" || (!InName(rest[0]) && rest[0] != '{' && (name == "" ==> rest[0] != '%'))
  }

  lemma {:induction false} ScanText(t: string, s: string, text: string)
    requires '%' !in t
    ensures Scan(t + s, text) == Scan(s, text + t)
    decreases |t|
  {
    hide HeadOf;
    if t == "" {
      assert t + s == s && text + t == text;
    } else {
      assert t[0] in t;
      assert (t + s)[1..] == t[1..] + s;
      ScanText(t[1..], s, text + [t[0]]);
      Shift(text, t);
    }
  }

  lemma {:induction false} NameLenOf(name: string, rest: string)
    requires forall k :: 0 <= k < |name| ==> InName(name[k])
    requires rest == "" || !InName(rest[0])
    ensures NameLen(name + rest) == |name|
  {
    if name != "" {
      assert (name + rest)[1..] == name[1..] + rest;
      NameLenOf(name[1..], rest);
    }
  }

  lemma {:induction false} FmtLenOf(fmt: string, rest: string)
    requires forall k :: 0 <= k < |fmt| ==> InFmt(fmt[k])
    requires rest == "" || !InFmt(rest[0])
    ensures FmtLen(fmt + rest) == |fmt|
  {
    if fmt != "" {
      assert (fmt + rest)[1..] == fmt[1..] + rest;
      FmtLenOf(fmt[1..], rest);
    }
  }

  lemma BareHead(name: string, rest: string)
    requires ItemOk(Directive(name, "")) && Stops(name, rest)
    ensures HeadOf(name + rest) == Bare(name, rest) && Opens("%" + (name + rest))
  {
    hide NameLen, FmtLen;
    NameLenOf(name, rest);
    var s := name + rest;
    assert s[..|name|] == name && s[|name|..] == rest;
  }

  lemma FullHead(name: string, fmt: string, rest: string)
    requires ItemOk(Directive(name, fmt))
    ensures HeadOf(name + Braced(fmt, rest)) == Full(name, fmt, rest) && Opens("%" + (name + Braced(fmt, rest)))
  {
    hide NameLen, FmtLen;
    NameLenOf(name, Braced(fmt, rest));
    FmtLenOf(fmt, "}" + rest);
    BracedSlices(name, fmt, rest);
  }

  lemma BracedSlices(name: string, fmt: string, rest: string)
    ensures var s := name + Braced(fmt, rest); var j := |name|; var k := j + 1 + |fmt|;
            && s[..j] == name && s[j] == '{' && s[j + 1..] == fmt + ("}" + rest)
            && s[j + 1..k] == fmt && s[k] == '}' && s[k + 1..] == rest
  {
  }

  lemma FollowerStops(i: Item, more: seq<Item>)
    requires i.Directive? && i.fmt == "" && Canonical(more) && (more != [] ==> CanFollow(i, more[0]))
    ensures Stops(i.name, Print(more))
  {
  }

  /** Scanning a printed directive, whatever text is pending. */
  lemma ScanDirective(i: Item, rest: string, text: string)
    requires i.Directive? && ItemOk(i) && (i.fmt == "" ==> Stops(i.name, rest))
    ensures Scan(PrintOnto(i, rest), text) == Flushed(text) + [i] + Scan(rest, "")
  {
    hide HeadOf, ItemOk, Stops, Flushed;
    var s := PrintOnto(i, rest);
    if i.fmt == "" {
      BareHead(i.name, rest);
      assert s[1..] == i.name + rest;
    } else {
      FullHead(i.name, i.fmt, rest);
      assert s[1..] == i.name + Braced(i.fmt, rest);
    }
  }

  /** Canonical lists of items are recovered from their printed form. */
  lemma {:induction false} RoundTrip(items: seq<Item>)
    requires Canonical(items)
    ensures Scan(Print(items), "") == items
  {
    hide PrintOnto, HeadOf, ItemOk;
    if items != [] {
      var more := items[1..];
      RoundTrip(more);
      if items[0].Directive? {
        if items[0].fmt == "" {
          FollowerStops(items[0], more);
        }
        ScanDirective(items[0], Print(more), "");
        assert items == [] + [items[0]] + more;
      } else {
        TextTrip(items[0].text, more);
        assert items == [items[0]] + more;
      }
    }
  }

  lemma TextTrip(t: string, more: seq<Item>)
    requires ItemOk(Text(t)) && Canonical(more) && Scan(Print(more), "") == more
    requires more != [] ==> more[0].Directive?
    ensures Scan(PrintOnto(Text(t), Print(more)), "") == [Text(t)] + more
  {
    hide Scan, HeadOf;
    ScanText(t, Print(more), "");
    assert "" + t == t;
    if more == [] {
      ScanEnd(t);
    } else {
      var i, rest := more[0], more[1..];
      if i.fmt == "" {
        FollowerStops(i, rest);
      }
      ScanDirective(i, Print(rest), t);
      ScanDirective(i, Print(rest), "");
      assert [Text(t)] + ([] + [i] + Scan(Print(rest), "")) == [Text(t)] + [i] + Scan(Print(rest), "");
    }
  }

  lemma ScanEnd(t: string)
    ensures Scan("", t) == Flushed(t)
  {
  }

  /** "%%" is meant to stand for one percent sign; the scanner reads one percent
      sign followed by a directive. */
  lemma DoublePercent(s: string)
    requires Opens("%" + s) && !HeadOf(s).Broken?
    ensures Scan("%%" + s, "") == [Text("%")] + Scan("%" + s, "")
  {
    hide HeadOf;
    assert ("%%" + s)[1..] == "%" + s;
    assert ("%" + s)[1..] == s;
    assert "" + ['%'] == "%";
  }
}
