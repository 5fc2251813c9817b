/**
 * The text operations the client performs on path templates and messages:
 * `str.join` and the `{id}` substitution done by `str.format(id=...)`.
 */
module Strings {

  /** The only placeholder a path template uses. */
  const Placeholder: string := "{id}"

  /** `sep.join(items)` in Python. */
  function Join(items: seq<string>, sep: string): (r: string)
    ensures |items| > 0 ==> items[0] <= r
    ensures |items| > 0 ==> |items[|items| - 1]| <= |r| && r[|r| - |items[|items| - 1]|..] == items[|items| - 1]
  {
    if |items| == 0 then ""
    else if |items| == 1 then items[0]
    else items[0] + sep + Join(items[1..], sep)
  }

  /** Joining is the same read from the right: the last item is appended after one more separator. */
  lemma {:induction false} JoinSnoc(items: seq<string>, x: string, sep: string)
    requires |items| > 0
    ensures Join(items + [x], sep) == Join(items, sep) + sep + x
  {
    if |items| > 1 {
      assert (items + [x])[1..] == items[1..] + [x];
      JoinSnoc(items[1..], x, sep);
    } else {
      assert (items + [x])[1..] == [x];
    }
  }

  /** Three items joined: each separated from the next by one separator. */
  lemma JoinThree(a: string, b: string, c: string, sep: string)
    ensures Join([a, b, c], sep) == a + sep + b + sep + c
  {
    assert [a] + [b] == [a, b];
    assert [a, b] + [c] == [a, b, c];
    JoinSnoc([a], b, sep);
    JoinSnoc([a, b], c, sep);
  }

  /** `t` begins with `{id}`. */
  predicate StartsWithPlaceholder(t: string)
  {
    |t| >= 4 && t[0] == '{' && t[1] == 'i' && t[2] == 'd' && t[3] == '}'
  }

  /** The number of `{id}` placeholders in `t`, counted left to right. */
  function Occurrences(t: string): nat
  {
    if |t| < 4 then 0
    else if StartsWithPlaceholder(t) then 1 + Occurrences(t[4..])
    else Occurrences(t[1..])
  }

  /**
   * `template.format(id=id)` restricted to templates whose only replacement
   * field is `{id}`: every placeholder is replaced by the text of `id`, and the
   * inserted text is not scanned again.
   */
  function FormatId(template: string, id: string): (r: string)
    ensures Occurrences(template) == 0 ==> r == template
  {
    if |template| < 4 then template
    else if StartsWithPlaceholder(template) then id + FormatId(template[4..], id)
    else [template[0]] + FormatId(template[1..], id)
  }

  lemma MulSucc(k: int, x: int)
    ensures (k + 1) * x == k * x + x
  {
  }

  /** Each placeholder is four characters exchanged for the id. */
  lemma {:induction false} FormatIdLength(template: string, id: string)
    ensures |FormatId(template, id)| == |template| + Occurrences(template) * (|id| - 4)
    decreases |template|
  {
    var x := |id| - 4;
    if |template| < 4 {
      assert Occurrences(template) == 0;
    } else if StartsWithPlaceholder(template) {
      var rest := template[4..];
      FormatIdLength(rest, id);
      var n, k := |FormatId(rest, id)|, Occurrences(rest);
      assert n == |rest| + k * x;
      assert |FormatId(template, id)| == |id| + n;
      assert Occurrences(template) == k + 1;
      MulSucc(k, x);
    } else {
      var rest := template[1..];
      FormatIdLength(rest, id);
      assert |FormatId(template, id)| == 1 + |FormatId(rest, id)|;
      assert Occurrences(template) == Occurrences(rest);
    }
  }



  /** Text without an opening brace holds no placeholder. */
  lemma {:induction false} NoBraceNoPlaceholder(t: string)
    requires '{' !in t
    ensures Occurrences(t) == 0
    decreases |t|
  {
    if |t| >= 4 {
      NoBraceNoPlaceholder(t[1..]);
    }
  }

  /** The scan matches at once on a placeholder at the very start. */
  lemma ScanAtPlaceholder(s: string)
    ensures StartsWithPlaceholder(Placeholder + s)
    ensures (Placeholder + s)[4..] == s
  {
  }

  /** Placeholder-free text does not start with a placeholder, nor does what follows its first character hold one. */
  lemma DropFirstNoPlaceholder(p: string)
    requires |p| > 0 && Occurrences(p) == 0
    ensures !StartsWithPlaceholder(p)
    ensures Occurrences(p[1..]) == 0
  {
  }

  /**
   * On a placeholder that follows a non-empty placeholder-free prefix `p`, the
   * scan does not match at the start, and it steps over the first character of `p`.
   */
  lemma ScanBeforePlaceholder(p: string, s: string)
    requires |p| > 0 && !StartsWithPlaceholder(p)
    ensures !StartsWithPlaceholder(p + Placeholder + s)
    ensures (p + Placeholder + s)[1..] == p[1..] + Placeholder + s
  {
    var t := p + Placeholder + s;
    if |p| >= 4 {
      assert t[0] == p[0] && t[1] == p[1] && t[2] == p[2] && t[3] == p[3];
    } else {
      assert t[|p|] == '{';
    }
  }

  /** A placeholder after a placeholder-free prefix is counted once. */
  lemma {:induction false} OccurrencesSplice(p: string, s: string)
    requires Occurrences(p) == 0
    ensures Occurrences(p + Placeholder + s) == 1 + Occurrences(s)
    decreases |p|
  {
    if |p| == 0 {
      ScanAtPlaceholder(s);
    } else {
      DropFirstNoPlaceholder(p);
      ScanBeforePlaceholder(p, s);
      OccurrencesSplice(p[1..], s);
    }
  }

  /**
   * A placeholder after a placeholder-free prefix is the first one the scan
   * meets: it is replaced by `id`, and the prefix is kept.
   */
  lemma {:induction false} FormatIdSplice(p: string, s: string, id: string)
    requires Occurrences(p) == 0
    ensures FormatId(p + Placeholder + s, id) == p + id + FormatId(s, id)
    decreases |p|
  {
    var t := p + Placeholder + s;
    if |p| == 0 {
      ScanAtPlaceholder(s);
      assert t == Placeholder + s;
      assert p + id + FormatId(s, id) == id + FormatId(s, id);
    } else {
      DropFirstNoPlaceholder(p);
      ScanBeforePlaceholder(p, s);
      FormatIdSplice(p[1..], s, id);
      var rest := FormatId(s, id);
      calc {
        FormatId(t, id);
        [t[0]] + FormatId(t[1..], id);
        [p[0]] + (p[1..] + id + rest);
        { assert [p[0]] + (p[1..] + id + rest) == ([p[0]] + p[1..]) + id + rest;
          assert [p[0]] + p[1..] == p; }
        p + id + rest;
      }
    }
  }


  /**
   * Substitution replaces EVERY placeholder: a template made of
   * placeholder-free parts separated by `{id}` has one placeholder fewer than
   * parts, and formatting it is the same parts joined by the id.
   */
  lemma {:induction false} FormatIdJoin(parts: seq<string>, id: string)
    requires |parts| > 0
    requires forall i :: 0 <= i < |parts| ==> Occurrences(parts[i]) == 0
    ensures Occurrences(Join(parts, Placeholder)) == |parts| - 1
    ensures FormatId(Join(parts, Placeholder), id) == Join(parts, id)
  {
    if |parts| > 1 {
      FormatIdJoin(parts[1..], id);
      OccurrencesSplice(parts[0], Join(parts[1..], Placeholder));
      FormatIdSplice(parts[0], Join(parts[1..], Placeholder), id);
    }
  }
}
