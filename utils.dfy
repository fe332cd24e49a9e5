/**
 * The shared string helpers of the shop: `cn`, `slugify`, `truncate` and the order
 * status colour and label tables.
 */
module Utils {
  import opened Text
  import opened Seqs
  import OrdersRoute

  /** An argument of `cn`: a class string, a boolean, `undefined` or `null`. */
  datatype ClassArg = Str(s: string) | Bool(b: bool) | Undefined | Null

  /** `Boolean(arg)` */
  predicate IsTruthy(a: ClassArg) {
    (a.Str? && a.s != "") || (a.Bool? && a.b)
  }

  /** How `join` prints a kept argument: `true` prints as the word. */
  function ArgText(a: ClassArg): string {
    match a
    case Str(s) => s
    case Bool(b) => if b then "true" else "false"
    case Undefined => ""
    case Null => ""
  }

  function Texts(args: seq<ClassArg>): (r: seq<string>)
    ensures |r| == |args|
    ensures forall i :: 0 <= i < |args| ==> r[i] == ArgText(args[i])
  {
    if args == [] then [] else [ArgText(args[0])] + Texts(args[1..])
  }

  /** `pieces.join(sep)` */
  function Join(pieces: seq<string>, sep: char): string {
    if pieces == [] then ""
    else if |pieces| == 1 then pieces[0]
    else pieces[0] + [sep] + Join(pieces[1..], sep)
  }

  /** `classes.filter(Boolean).join(' ')` */
  function Cn(args: seq<ClassArg>): string {
    Join(Texts(Filter(args, IsTruthy)), ' ')
  }

  /** Splitting a join of pieces free of the separator gives the pieces back. */
  lemma {:induction false} SplitJoin(pieces: seq<string>, sep: char)
    requires |pieces| >= 1
    requires forall i :: 0 <= i < |pieces| ==> sep !in pieces[i]
    ensures Split(Join(pieces, sep), sep) == pieces
    decreases |pieces|
  {
    if |pieces| == 1 {
      assert Join(pieces, sep) == pieces[0];
    } else {
      var p := pieces[0];
      var rest := Join(pieces[1..], sep);
      assert Join(pieces, sep) == p + [sep] + rest;
      SplitHead(p, sep, rest);
      SplitJoin(pieces[1..], sep);
      assert pieces == [p] + pieces[1..];
    }
  }

  /** `cn` keeps the truthy arguments in order and separates them by single spaces:
      with class names free of spaces, splitting the result on spaces gives exactly the
      kept names. */
  lemma CnPieces(args: seq<ClassArg>)
    requires forall i :: 0 <= i < |args| ==> ' ' !in ArgText(args[i])
    requires exists i :: 0 <= i < |args| && IsTruthy(args[i])
    ensures Split(Cn(args), ' ') == Texts(Filter(args, IsTruthy))
  {
    var kept := Filter(args, IsTruthy);
    var i :| 0 <= i < |args| && IsTruthy(args[i]);
    assert args[i] in kept;
    var t := Texts(kept);
    KeptNoSpace(args, kept);
    SplitJoin(t, ' ');
  }

  lemma KeptNoSpace(args: seq<ClassArg>, kept: seq<ClassArg>)
    requires forall i :: 0 <= i < |args| ==> ' ' !in ArgText(args[i])
    requires forall a :: a in kept ==> a in args
    ensures forall k :: 0 <= k < |kept| ==> ' ' !in Texts(kept)[k]
  {
    forall k | 0 <= k < |kept| ensures ' ' !in Texts(kept)[k] {
      assert kept[k] in args;
      var j :| 0 <= j < |args| && args[j] == kept[k];
    }
  }

  /** A falsy argument anywhere leaves no trace: `cn(..., false, ...)` is `cn` without it. */
  lemma CnDropsFalsy(before: seq<ClassArg>, a: ClassArg, after: seq<ClassArg>)
    requires !IsTruthy(a)
    ensures Cn(before + [a] + after) == Cn(before + after)
  {
    FilterAppend(before + [a], after, IsTruthy);
    FilterAppend(before, [a], IsTruthy);
    FilterAppend(before, after, IsTruthy);
    assert Filter([a], IsTruthy) == [];
    assert Filter(before, IsTruthy) + [] == Filter(before, IsTruthy);
  }

  // ---------------------------------------------------------------------------
  // slugify

  /** `[\w\s-]`: what the first replacement keeps. */
  predicate Kept(c: char) { IsWordChar(c) || IsSpace(c) || c == '-' }

  /** `[\s_-]`: what the second replacement collapses. */
  predicate IsSep(c: char) { IsSpace(c) || c == '_' || c == '-' }

  /** A character a slug may hold. */
  predicate IsSlugChar(c: char) { IsAsciiLower(c) || IsDigit(c) || c == '-' }

  /** `.replace(/[\s_-]+/g, '-')`: every maximal run of separators becomes one hyphen.
      `inRun` says the previous character was a separator. */
  function Collapse(s: string, inRun: bool): (r: string)
    ensures inRun ==> r == [] || r[0] != '-'
    ensures forall i :: 0 <= i < |r| - 1 ==> !(r[i] == '-' && r[i + 1] == '-')
    ensures forall i :: 0 <= i < |r| ==> r[i] == '-' || (r[i] in s && !IsSep(r[i]))
  {
    if s == [] then []
    else if IsSep(s[0]) then (if inRun then "" else "-") + Collapse(s[1..], true)
    else [s[0]] + Collapse(s[1..], false)
  }

  /** `.replace(/^-+/, '')` */
  function TrimStart(s: string): (r: string)
    ensures r == [] || r[0] != '-'
    ensures |r| <= |s| && r == s[|s| - |r|..]
    ensures forall i :: 0 <= i < |s| - |r| ==> s[i] == '-'
  {
    if s != [] && s[0] == '-' then TrimStart(s[1..]) else s
  }

  /** `.replace(/-+$/, '')` */
  function TrimEnd(s: string): (r: string)
    ensures r == [] || r[|r| - 1] != '-'
    ensures |r| <= |s| && r == s[..|r|]
    ensures forall i :: |r| <= i < |s| ==> s[i] == '-'
  {
    if s != [] && s[|s| - 1] == '-' then TrimEnd(s[..|s| - 1]) else s
  }

  /** `slugify(text)` */
  function Slugify(text: string): string {
    TrimEnd(TrimStart(Collapse(Filter(ToLower(text), Kept), false)))
  }

  /** What a slug looks like: lower-case letters, digits and single inner hyphens. */
  predicate IsSlug(s: string) {
    && (forall i :: 0 <= i < |s| ==> IsSlugChar(s[i]))
    && (forall i :: 0 <= i < |s| - 1 ==> !(s[i] == '-' && s[i + 1] == '-'))
    && (s == [] || (s[0] != '-' && s[|s| - 1] != '-'))
  }

  /** A slug holds only `[a-z0-9-]`: no white space, no underscore, no upper case, no
      character the first replacement removes, no doubled hyphen and no hyphen at
      either end. */
  lemma SlugifyIsSlug(text: string)
    ensures IsSlug(Slugify(text))
  {
    var kept := Filter(ToLower(text), Kept);
    KeptChars(text);
    var col := Collapse(kept, false);
    assert forall i :: 0 <= i < |col| ==> IsSlugChar(col[i]) by {
      forall i | 0 <= i < |col| ensures IsSlugChar(col[i]) {
        if col[i] != '-' {
          assert col[i] in kept;
        }
      }
    }
    TrimmedIsSlug(col);
  }

  /** After lower-casing and the first replacement, every character is kept and none is
      upper case. */
  lemma KeptChars(text: string)
    ensures forall c :: c in Filter(ToLower(text), Kept) ==> Kept(c) && !IsAsciiUpper(c)
  {
    var lower := ToLower(text);
    forall c | c in Filter(lower, Kept) ensures Kept(c) && !IsAsciiUpper(c) {
      var i :| 0 <= i < |lower| && lower[i] == c;
    }
  }

  /** Slug characters without doubled hyphens: what `Collapse` leaves of kept text. */
  predicate SlugShaped(s: string) {
    && (forall i :: 0 <= i < |s| ==> IsSlugChar(s[i]))
    && (forall i :: 0 <= i < |s| - 1 ==> !(s[i] == '-' && s[i + 1] == '-'))
  }

  /** Any slice of slug-shaped text is slug-shaped. */
  lemma SliceSlugShaped(s: string, lo: nat, hi: nat)
    requires SlugShaped(s) && lo <= hi <= |s|
    ensures SlugShaped(s[lo..hi])
  {
    var t := s[lo..hi];
    forall i | 0 <= i < |t| - 1 ensures !(t[i] == '-' && t[i + 1] == '-') {
      assert t[i] == s[lo + i] && t[i + 1] == s[lo + i + 1];
    }
  }

  /** Trimming the hyphens off both ends of slug characters without doubled hyphens
      gives a slug. */
  lemma TrimmedIsSlug(col: string)
    requires SlugShaped(col)
    ensures IsSlug(TrimEnd(TrimStart(col)))
  {
    var ts := TrimStart(col);
    SliceSlugShaped(col, |col| - |ts|, |col|);
    assert col[|col| - |ts|..|col|] == ts;
    var r := TrimEnd(ts);
    SliceSlugShaped(ts, 0, |r|);
    assert ts[0..|r|] == r;
    if r != [] {
      assert r[0] == ts[0];
    }
  }

  /** The two characters whose JavaScript lower case contains an ASCII letter without
      being one: the Kelvin sign lowers to `k` and the dotted capital I to `i` and a
      combining dot. */
  predicate LowersToAscii(c: char) { c == '\U{212A}' || c == '\U{0130}' }

  /** A character outside `[\w\s-]` (an Arabic letter, punctuation) whose lower case is
      not an ASCII letter never reaches the slug; a text made only of such characters
      slugifies to the empty string. */
  lemma SlugifyDropsOthers(text: string)
    requires forall i :: 0 <= i < |text| ==> !Kept(text[i]) && !IsAsciiUpper(text[i]) && !LowersToAscii(text[i])
    ensures Slugify(text) == ""
  {
    var lower := ToLower(text);
    assert forall i :: 0 <= i < |lower| ==> lower[i] == text[i];
    FilterNone(lower, Kept);
  }

  /** `Collapse` leaves a string of slug characters without doubled hyphens alone, as
      long as it does not open with a hyphen right after a separator. */
  lemma {:induction false} CollapseSlug(s: string, inRun: bool)
    requires forall i :: 0 <= i < |s| ==> IsSlugChar(s[i])
    requires forall i :: 0 <= i < |s| - 1 ==> !(s[i] == '-' && s[i + 1] == '-')
    requires inRun ==> s == [] || s[0] != '-'
    ensures Collapse(s, inRun) == s
    decreases |s|
  {
    if s != [] {
      var t := s[1..];
      forall i | 0 <= i < |t| ensures IsSlugChar(t[i]) {
        assert t[i] == s[i + 1];
      }
      forall i | 0 <= i < |t| - 1 ensures !(t[i] == '-' && t[i + 1] == '-') {
        assert t[i] == s[i + 1] && t[i + 1] == s[i + 2];
      }
      assert s[0] == '-' ==> t == [] || t[0] != '-' by {
        if |s| > 1 { assert t[0] == s[1]; }
      }
      CollapseSlug(t, s[0] == '-');
      assert IsSep(s[0]) <==> s[0] == '-' by {
        assert IsSlugChar(s[0]);
      }
      assert s == [s[0]] + t;
    }
  }

  /** Slugifying a slug changes nothing, so `slugify` is idempotent. */
  lemma SlugIsFixed(s: string)
    requires IsSlug(s)
    ensures Slugify(s) == s
  {
    assert ToLower(s) == s;
    FilterAll(s, Kept);
    CollapseSlug(s, false);
  }

  lemma SlugifyIdempotent(text: string)
    ensures Slugify(Slugify(text)) == Slugify(text)
  {
    SlugifyIsSlug(text);
    SlugIsFixed(Slugify(text));
  }

  // ---------------------------------------------------------------------------
  // truncate

  /** `text.slice(0, end)` for an end that is below the length: a negative end counts
      from the back. */
  function SliceTo(text: string, end: int): (r: string)
    requires end < |text|
    ensures |r| == if end >= 0 then end else if |text| + end > 0 then |text| + end else 0
    ensures r == text[..|r|]
  {
    if end >= 0 then text[..end]
    else if |text| + end > 0 then text[..|text| + end]
    else ""
  }

  /** `truncate(text, length)` */
  function Truncate(text: string, length: int): string {
    if |text| <= length then text else SliceTo(text, length) + "..."
  }

  /** Text that fits is returned as is; longer text keeps its first `length`
      characters and gains an ellipsis, `length + 3` characters in all. */
  lemma TruncateShape(text: string, length: nat)
    ensures |text| <= length ==> Truncate(text, length) == text
    ensures |text| > length ==>
              && |Truncate(text, length)| == length + 3
              && StartsWith(Truncate(text, length), text[..length])
              && EndsWith(Truncate(text, length), "...")
  {
    if |text| > length {
      var r := Truncate(text, length);
      assert r == text[..length] + "...";
      assert r[..length] == text[..length];
      assert r[length..] == "...";
    }
  }

  /** A negative length cuts from the back, as `slice` does. */
  lemma TruncateNegative()
    ensures Truncate("abcdef", -2) == "abcd..."
  {
    assert SliceTo("abcdef", -2) == "abcd";
  }

  // ---------------------------------------------------------------------------
  // status tables

  const GrayClasses: string := "bg-gray-100 text-gray-800"

  /** `getStatusColor(status)` */
  function StatusColor(status: string): string {
    match status
    case "pending" => "bg-yellow-100 text-yellow-800"
    case "confirmed" => "bg-blue-100 text-blue-800"
    case "processing" => "bg-purple-100 text-purple-800"
    case "shipped" => "bg-indigo-100 text-indigo-800"
    case "delivered" => "bg-green-100 text-green-800"
    case "cancelled" => "bg-red-100 text-red-800"
    case _ => GrayClasses
  }

  /** `getStatusLabel(status)`: the Arabic label, or the status itself. */
  function StatusLabel(status: string): string {
    match status
    case "pending" => "قيد الانتظار"
    case "confirmed" => "مؤكد"
    case "processing" => "قيد التجهيز"
    case "shipped" => "تم الشحن"
    case "delivered" => "تم التوصيل"
    case "cancelled" => "ملغي"
    case _ => status
  }

  /** Exactly the six order statuses get a colour of their own. */
  lemma StatusColorKnown(s: string)
    ensures OrdersRoute.IsOrderStatus(s) <==> StatusColor(s) != GrayClasses
  {
  }

  /** No two statuses share a colour. */
  lemma StatusColorDistinct(s: string, t: string)
    requires OrdersRoute.IsOrderStatus(s) && OrdersRoute.IsOrderStatus(t) && s != t
    ensures StatusColor(s) != StatusColor(t)
  {
  }

  /** The six statuses get Arabic labels that differ from every English status name;
      any other string is its own label. */
  lemma StatusLabelKnown(s: string)
    ensures OrdersRoute.IsOrderStatus(s) ==> StatusLabel(s) != s && !OrdersRoute.IsOrderStatus(StatusLabel(s))
    ensures !OrdersRoute.IsOrderStatus(s) ==> StatusLabel(s) == s
  {
  }

  /** No two statuses share a label. */
  lemma StatusLabelDistinct(s: string, t: string)
    requires OrdersRoute.IsOrderStatus(s) && OrdersRoute.IsOrderStatus(t) && s != t
    ensures StatusLabel(s) != StatusLabel(t)
  {
  }

}
