/** The log formatter's own scan, index by index, proved against `LogPattern.Scan`. */
module LogFormatters {
  import opened LogPattern

  /** What a formatter prints with: literal text, a known directive, or the marker
      of an unknown one. */
  datatype FormatItem = Literal(text: string) | Known(name: string, fmt: string) | Unknown(text: string)

  const NAMES := ["m", "p", "r", "c", "t", "n", "F", "T", "d", "f", "l", "N"]

  /** Literal text stays as it is, a known directive keeps its name and its format, and
      an unknown one is named in its marker. */
  predicate Prints(f: FormatItem, i: Item)
  {
    && (i.Text? ==> f == Literal(i.text))
    && (i.Directive? && i.name in NAMES ==> f == Known(i.name, i.fmt))
    && (i.Directive? && i.name !in NAMES ==> f == Unknown("<<error_format %" + i.name + ">>"))
  }

  predicate UnknownIn(items: seq<Item>)
  {
    exists i :: 0 <= i < |items| && items[i].Directive? && items[i].name !in NAMES
  }

  class LogFormatter {
    const pattern: string
    var items: seq<FormatItem>
    var isError: bool

    /** The formatter has one item for each piece of its pattern, in order, and is
        flagged exactly if a brace is left open or a directive is unknown. */
    constructor (pattern: string)
      ensures this.pattern == pattern
      ensures |items| == |Scan(pattern, "")|
      ensures forall i :: 0 <= i < |items| ==> Prints(items[i], Scan(pattern, "")[i])
      ensures isError <==> Errors(pattern) > 0 || UnknownIn(Scan(pattern, ""))
    {
      this.pattern, items, isError := pattern, [], false;
      new;
      Init();
    }

    method Init()
      requires items == [] && !isError
      modifies this
      ensures |items| == |Scan(pattern, "")|
      ensures forall i :: 0 <= i < |items| ==> Prints(items[i], Scan(pattern, "")[i])
      ensures isError <==> Errors(pattern) > 0 || UnknownIn(Scan(pattern, ""))
    {
      hide NAMES, UnknownIn, Scan, Errors;
      var vec := ScanPattern();
      var k := 0;
      NoUnknown(vec[..0]);
      ghost var broken := isError;
      while k < |vec|
        invariant k <= |vec| && |items| == k
        invariant forall i :: 0 <= i < k ==> Prints(items[i], vec[i])
        invariant isError <==> broken || UnknownIn(vec[..k])
      {
        UnknownMore(vec, k);
        if vec[k].Text? {
          items := items + [Literal(vec[k].text)];
        } else if vec[k].name in NAMES {
          items := items + [Known(vec[k].name, vec[k].fmt)];
        } else {
          items := items + [Unknown("<<error_format %" + vec[k].name + ">>")];
          isError := true;
        }
        k := k + 1;
      }
      assert vec[..k] == vec;
    }

    /** The first loop of init. */
    method ScanPattern() returns (vec: seq<Item>)
      requires !isError
      modifies this`isError
      ensures vec == Scan(pattern, "")
      ensures isError <==> Errors(pattern) > 0
    {
      hide HeadOf, NameLen, FmtLen, Scan, Errors;
      vec := [];
      var nstr := "";
      var i := 0;
      assert pattern[0..] == pattern;
      while i < |pattern|
        invariant i <= |pattern|
        invariant vec + Scan(pattern[i..], nstr) == Scan(pattern, "")
        invariant isError || Errors(pattern[i..]) > 0 <==> Errors(pattern) > 0
        decreases |pattern| - i
      {
        ghost var s := pattern[i..];
        if pattern[i] != '%' {
          Skips(s, nstr);
          nstr := nstr + [pattern[i]];
          i := i + 1;
          continue;
        }
        if i + 1 < |pattern| && pattern[i + 1] == '%' {
          Skips(s, nstr);
          nstr := nstr + ['%'];
          i := i + 1;
          continue;
        }
        var status, n, str, fmt := ScanHead(i);
        Steps(s, nstr);
        ghost var h := HeadOf(pattern[i + 1..]);
        if status == 1 {
          Appended(vec, [ERROR], Scan(pattern[i + 1..], nstr));
        } else {
          Appended(vec, Flushed(nstr) + [Directive(str, fmt)], Scan(h.rest, ""));
          Appended(vec, Flushed(nstr), [Directive(str, fmt)]);
        }
        if status == 0 {
          if nstr != "" {
            vec := vec + [Text(nstr)];
            nstr := "";
          }
          vec := vec + [Directive(str, fmt)];
          i := n - 1;
        } else if status == 1 {
          vec := vec + [ERROR];
          isError := true;
        } else {
          if nstr != "" {
            vec := vec + [Text(nstr)];
            nstr := "";
          }
          vec := vec + [Directive(str, fmt)];
          i := n;
        }
        i := i + 1;
      }
      ScanEnd(nstr);
      NoErrors();
      assert pattern[i..] == "";
      if nstr != "" {
        vec := vec + [Text(nstr)];
      }
    }

    /** The inner loop: reads a directive behind the percent sign at i. Status 0 is
        a bare name up to n, 1 an unclosed brace, 2 a closed one at n. */
    method ScanHead(i: nat) returns (status: int, n: nat, str: string, fmt: string)
      requires i < |pattern|
      ensures i < n <= |pattern| && 0 <= status <= 2
      ensures match HeadOf(pattern[i + 1..])
              case Bare(name, rest) => status == 0 && str == name && fmt == "" && rest == pattern[n..]
              case Full(name, f, rest) => status == 2 && n < |pattern| && str == name && fmt == f && rest == pattern[n + 1..]
              case Broken => status == 1
    {
      hide HeadOf, NameLen, FmtLen;
      status, n, str, fmt := 0, i + 1, "", "";
      var begin := 0;
      while n < |pattern|
        invariant i < n <= |pattern| && 0 <= status <= 1 && fmt == ""
        invariant status == 0 ==> forall k :: i < k < n ==> InName(pattern[k])
        invariant status == 1 ==>
                    && i < begin < n && pattern[begin] == '{' && str == pattern[i + 1..begin]
                    && (forall k :: i < k < begin ==> InName(pattern[k]))
                    && (forall k :: begin < k < n ==> InFmt(pattern[k]))
      {
        if !Alpha(pattern[n]) && pattern[n] != '{' && pattern[n] != '}' {
          break;
        }
        if status == 0 {
          if pattern[n] == '{' {
            str := pattern[i + 1..n];
            status := 1;
            begin := n;
            n := n + 1;
            continue;
          }
        }
        if status == 1 {
          if pattern[n] == '}' {
            fmt := pattern[begin + 1..n];
            status := 2;
            break;
          }
        }
        n := n + 1;
      }
      if status == 0 {
        BareAt(pattern, i + 1, n);
        str := pattern[i + 1..n];
      } else {
        BracedAt(pattern, i + 1, begin, n);
      }
    }
  }

  lemma NoUnknown(items: seq<Item>)
    requires items == []
    ensures !UnknownIn(items)
  {
  }

  lemma UnknownMore(items: seq<Item>, k: nat)
    requires k < |items|
    ensures UnknownIn(items[..k + 1]) <==> UnknownIn(items[..k]) || (items[k].Directive? && items[k].name !in NAMES)
  {
    hide NAMES;
    var a, b := items[..k], items[..k + 1];
    assert b == a + [items[k]];
    if UnknownIn(a) {
      var i :| 0 <= i < |a| && a[i].Directive? && a[i].name !in NAMES;
      assert b[i] == a[i];
    }
    if items[k].Directive? && items[k].name !in NAMES {
      assert b[k] == items[k];
    }
  }

  lemma Skips(s: string, text: string)
    requires s != "" && !Opens(s)
    ensures Scan(s, text) == Scan(s[1..], text + [s[0]]) && Errors(s) == Errors(s[1..])
  {
  }

  lemma Steps(s: string, text: string)
    requires Opens(s)
    ensures match HeadOf(s[1..])
            case Bare(name, rest) =>
              Scan(s, text) == Flushed(text) + [Directive(name, "")] + Scan(rest, "") && Errors(s) == Errors(rest)
            case Full(name, fmt, rest) =>
              Scan(s, text) == Flushed(text) + [Directive(name, fmt)] + Scan(rest, "") && Errors(s) == Errors(rest)
            case Broken => Scan(s, text) == [ERROR] + Scan(s[1..], text) && Errors(s) == 1 + Errors(s[1..])
  {
    hide HeadOf;
  }

  lemma Appended<T>(a: seq<T>, b: seq<T>, c: seq<T>)
    ensures a + (b + c) == (a + b) + c
  {
  }

  lemma NoErrors()
    ensures Errors("") == 0
  {
  }

  /** A run of name characters that ends without a brace. */
  lemma BareAt(p: string, a: nat, n: nat)
    requires a <= n <= |p| && forall k :: a <= k < n ==> InName(p[k])
    requires n < |p| ==> !InName(p[n]) && p[n] != '{'
    ensures HeadOf(p[a..]) == Bare(p[a..n], p[n..])
  {
    hide NameLen, FmtLen;
    var s := p[a..];
    assert s == p[a..n] + p[n..];
    NameLenOf(p[a..n], p[n..]);
  }

  /** A run of name characters, a brace, and a run of format characters. */
  lemma BracedAt(p: string, a: nat, begin: nat, n: nat)
    requires a <= begin < n <= |p| && p[begin] == '{'
    requires forall k :: a <= k < begin ==> InName(p[k])
    requires forall k :: begin < k < n ==> InFmt(p[k])
    requires n < |p| ==> !InFmt(p[n])
    ensures HeadOf(p[a..]) ==
            if n < |p| && p[n] == '}' then Full(p[a..begin], p[begin + 1..n], p[n + 1..]) else Broken
  {
    hide NameLen, FmtLen;
    var s := p[a..];
    var j := begin - a;
    assert s == p[a..begin] + p[begin..];
    NameLenOf(p[a..begin], p[begin..]);
    assert s[j + 1..] == p[begin + 1..] == p[begin + 1..n] + p[n..];
    FmtLenOf(p[begin + 1..n], p[n..]);
    assert n < |p| ==> s[n - a] == p[n] && s[n - a + 1..] == p[n + 1..] && s[j + 1..n - a] == p[begin + 1..n];
    assert s[..j] == p[a..begin];
  }
}
