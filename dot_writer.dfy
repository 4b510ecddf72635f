/** `DotWriter`, identical in both scripts: DOT text written piece by piece.
    The output file is modelled as the string written so far; a `TypeError`
    raised by `id` ends the writing, which the methods report by returning
    `false` after having written what the source writes before raising. */
module DotWriter {
  import opened Wrappers
  import opened PyStr
  import opened Sequences

  /** The characters `escape` rewrites, in the order it rewrites them, and
      what each becomes. */
  const Specials: seq<char> := ['\\', '\n', '\t', '"']
  const Escapes: seq<string> := ["\\\\", "\\n", "\\t", "\\\""]

  /** Which of `Specials` `c` is, or -1. */
  function SpecialIndex(c: char): (j: int)
    ensures -1 <= j < 4
    ensures j >= 0 ==> Specials[j] == c
    ensures j == -1 ==> c !in Specials
  {
    if c == '\\' then 0 else if c == '\n' then 1 else if c == '\t' then 2 else if c == '"' then 3 else -1
  }

  /** What `c` has become after the first `k` replacements of `escape`. */
  function EscapedChar(c: char, k: nat): string {
    var j := SpecialIndex(c);
    if 0 <= j < k then Escapes[j] else [c]
  }

  /** Every character of `s` after the first `k` replacements, in order. */
  function EscapedChars(s: string, k: nat): string
    decreases |s|
  {
    if |s| == 0 then "" else EscapedChar(s[0], k) + EscapedChars(s[1..], k)
  }

  /** The four `replace` calls of `escape`, the first `k` of them. */
  function Replaced(s: string, k: nat): string
    requires k <= 4
  {
    if k == 0 then s else Replace(Replaced(s, k - 1), [Specials[k - 1]], Escapes[k - 1])
  }

  /** `escape`: backslashes doubled, newline, tab and double quote written
      as backslash sequences, all inside double quotes. Stated as one pass
      over the characters; `EscapeIsReplaceChain` proves it is what the
      four `replace` calls in their order produce. */
  function Escape(s: string): string {
    "\"" + EscapedChars(s, 4) + "\""
  }

  /** Replacement `k` turns each character's stage-`k` text into its
      stage-`k + 1` text: earlier replacements never produce a character a
      later one rewrites, because backslashes are doubled first. */
  lemma ReplaceOneChar(c: char, k: nat)
    requires k < 4
    ensures Replace(EscapedChar(c, k), [Specials[k]], Escapes[k]) == EscapedChar(c, k + 1)
  {
    var j := SpecialIndex(c);
    var t := EscapedChar(c, k);
    assert Specials[0] == '\\' && Specials[1] == '\n' && Specials[2] == '\t' && Specials[3] == '"';
    if 0 <= j < k {
      assert t == Escapes[j];
      assert forall i :: 0 <= i <= |t| - 1 ==> !OccursAt(t, [Specials[k]], i) by {
        forall i | 0 <= i <= |t| - 1 ensures !OccursAt(t, [Specials[k]], i) {
          assert t[i..i + 1] == [t[i]];
        }
      }
      ReplaceAbsent(t, [Specials[k]], Escapes[k]);
    } else {
      assert t == [c];
      assert Replace(t[1..], [Specials[k]], Escapes[k]) == "";
      if j == k {
        assert t[..1] == [Specials[k]];
      } else {
        assert c != Specials[k] by {
          if j == -1 {
            assert Specials[k] in Specials;
          }
        }
        assert t[..1] == [c];
      }
    }
  }

  /** Replacement `k` applied to the stage-`k` text of a whole string. */
  lemma {:induction false} ReplaceStage(s: string, k: nat)
    requires k < 4
    ensures Replace(EscapedChars(s, k), [Specials[k]], Escapes[k]) == EscapedChars(s, k + 1)
    decreases |s|
  {
    if |s| > 0 {
      ReplaceCharAppend(EscapedChar(s[0], k), EscapedChars(s[1..], k), Specials[k], Escapes[k]);
      ReplaceOneChar(s[0], k);
      ReplaceStage(s[1..], k);
    }
  }

  lemma {:induction false} NoEscapesYet(s: string)
    ensures EscapedChars(s, 0) == s
    decreases |s|
  {
    if |s| > 0 {
      NoEscapesYet(s[1..]);
      assert s == [s[0]] + s[1..];
    }
  }

  /** The chain of replacements is the character-by-character escape. */
  lemma {:induction false} ReplacedIsEscapedChars(s: string, k: nat)
    requires k <= 4
    ensures Replaced(s, k) == EscapedChars(s, k)
  {
    if k == 0 {
      NoEscapesYet(s);
    } else {
      ReplacedIsEscapedChars(s, k - 1);
      ReplaceStage(s, k - 1);
    }
  }

  /** `escape` is the chain of its four `replace` calls. */
  lemma EscapeIsReplaceChain(s: string)
    ensures Escape(s) == "\"" + Replaced(s, 4) + "\""
  {
    ReplacedIsEscapedChars(s, 4);
  }

  /** Reading back a backslash sequence of `escape`. */
  function UnescapeChar(c: char): char {
    if c == 'n' then '\n' else if c == 't' then '\t' else c
  }

  /** The inverse of `escape` on the text between the quotes. */
  function Unescape(t: string): string
    decreases |t|
  {
    if |t| == 0 then ""
    else if t[0] == '\\' && |t| >= 2 then [UnescapeChar(t[1])] + Unescape(t[2..])
    else [t[0]] + Unescape(t[1..])
  }

  lemma EscapedCharsCons(s: string)
    requires |s| > 0
    ensures EscapedChars(s, 4) == EscapedChar(s[0], 4) + EscapedChars(s[1..], 4)
  {
  }

  /** `escape` loses nothing: the quoted text reads back as the string. */
  lemma {:induction false} EscapeRoundTrip(s: string)
    ensures Unescape(EscapedChars(s, 4)) == s
    decreases |s|
  {
    if |s| > 0 {
      EscapeRoundTrip(s[1..]);
      var head, tail := EscapedChar(s[0], 4), EscapedChars(s[1..], 4);
      var t := EscapedChars(s, 4);
      EscapedCharsCons(s);
      if SpecialIndex(s[0]) >= 0 {
        assert |head| == 2 && head[0] == '\\';
        assert t[2..] == tail;
        assert Unescape(t) == [UnescapeChar(head[1])] + Unescape(tail);
      } else {
        assert head == [s[0]];
        assert t[1..] == tail;
        assert Unescape(t) == [s[0]] + Unescape(tail);
      }
      assert s == [s[0]] + s[1..];
    }
  }

  /** The escaped text holds no raw newline or tab, and every double quote
      in it follows a backslash. */
  lemma {:induction false} EscapedHasNoRawSpecials(s: string)
    ensures forall i :: 0 <= i < |EscapedChars(s, 4)| ==>
      EscapedChars(s, 4)[i] != '\n' && EscapedChars(s, 4)[i] != '\t'
    ensures forall i :: 0 <= i < |EscapedChars(s, 4)| && EscapedChars(s, 4)[i] == '"' ==>
      i > 0 && EscapedChars(s, 4)[i - 1] == '\\'
    decreases |s|
  {
    if |s| > 0 {
      EscapedHasNoRawSpecials(s[1..]);
      var head, tail := EscapedChar(s[0], 4), EscapedChars(s[1..], 4);
      var t := EscapedChars(s, 4);
      EscapedCharsCons(s);
      assert |head| == 1 ==> head[0] != '\n' && head[0] != '\t' && head[0] != '"';
      assert |head| == 2 ==> head[0] == '\\' && head[1] != '\n' && head[1] != '\t';
      forall i | 0 <= i < |t| ensures t[i] != '\n' && t[i] != '\t' && (t[i] == '"' ==> i > 0 && t[i - 1] == '\\') {
        if i >= |head| {
          assert t[i] == tail[i - |head|];
          if i > |head| {
            assert t[i - 1] == tail[i - |head| - 1];
          } else {
            assert tail[0] != '"';
          }
        }
      }
    }
  }

  /** The values `id` is given: numbers, strings, and anything else, which
      it rejects. Python floats are not modelled. */
  datatype DotValue = Num(n: int) | Str(s: string) | Unsupported

  /** The text `id` writes for `v`, or None where it raises `TypeError`. */
  function IdText(v: DotValue): (r: Option<string>)
    ensures r.None? <==> v.Unsupported?
  {
    match v
    case Num(n) => Some(IntToString(n))
    case Str(s) => if IsAlnum(s) then Some(s) else Some(Escape(s))
    case Unsupported => None
  }

  /** How a DOT reader takes an ID back: a quoted ID is unescaped, any
      other is taken as it is. */
  function ReadId(t: string): string {
    if |t| >= 2 && t[0] == '"' && t[|t| - 1] == '"' then Unescape(t[1..|t| - 1]) else t
  }

  /** Every string id reads back as itself, bare or quoted. */
  lemma IdRoundTrip(s: string)
    ensures ReadId(IdText(Str(s)).value) == s
  {
    if IsAlnum(s) {
      assert !IsAlnumChar('"');
      if |s| >= 2 && s[0] == '"' {
        assert false;
      }
    } else {
      EscapeRoundTrip(s);
      var t := Escape(s);
      assert t[1..|t| - 1] == EscapedChars(s, 4);
    }
  }

  /** What a sequence of writes leaves in the file, and whether it ended
      with a `TypeError`. */
  datatype Emitted = Emitted(text: string, failed: bool)

  /** `id` for a value, as written text. */
  function IdOut(v: DotValue): (e: Emitted)
    ensures e.failed <==> v.Unsupported?
    ensures e.failed ==> e.text == ""
  {
    if IdText(v).Some? then Emitted(IdText(v).value, false) else Emitted("", true)
  }

  /** `t` after the separator `, ` unless it is the first pair. */
  function Lead(first: bool, t: string): string {
    if first then t else ", " + t
  }

  /** One turn of `attr_list`'s loop: the separator unless it is the first
      pair, the name, `=` and the value, stopping where `id` raises. */
  function PairOut(attr: (DotValue, DotValue), first: bool): Emitted {
    var name, value := IdOut(attr.0), IdOut(attr.1);
    if name.failed then Emitted(if first then "" else ", ", true)
    else if value.failed then Emitted(Lead(first, name.text + "="), true)
    else Emitted(Lead(first, name.text + "=" + value.text), false)
  }

  /** The turns of `attr_list`'s loop from pair `i` on; `first` holds
      exactly at pair 0. */
  function PairsFrom(attrs: seq<(DotValue, DotValue)>, i: nat): Emitted
    requires i < |attrs|
    decreases |attrs| - i
  {
    var p := PairOut(attrs[i], i == 0);
    if p.failed || i + 1 == |attrs| then p
    else
      var rest := PairsFrom(attrs, i + 1);
      Emitted(p.text + rest.text, rest.failed)
  }

  /** `attr_list`: nothing for no attributes, else the pairs in brackets. */
  function AttrListOut(attrs: seq<(DotValue, DotValue)>): Emitted {
    if |attrs| == 0 then Emitted("", false)
    else
      var pairs := PairsFrom(attrs, 0);
      if pairs.failed then Emitted(" [" + pairs.text, true) else Emitted(" [" + pairs.text + "]", false)
  }

  predicate AllSupported(attrs: seq<(DotValue, DotValue)>) {
    forall a :: a in attrs ==> !a.0.Unsupported? && !a.1.Unsupported?
  }

  /** The pairs raise exactly when some name or value is unsupported. */
  lemma {:induction false} PairsFailIff(attrs: seq<(DotValue, DotValue)>, i: nat)
    requires i < |attrs|
    ensures PairsFrom(attrs, i).failed <==> !AllSupported(attrs[i..])
    decreases |attrs| - i
  {
    assert attrs[i..] == [attrs[i]] + attrs[i + 1..];
    if i + 1 < |attrs| {
      PairsFailIff(attrs, i + 1);
    }
  }

  /** The `name=value` text of one supported pair. */
  function PairText(attr: (DotValue, DotValue)): string {
    IdOut(attr.0).text + "=" + IdOut(attr.1).text
  }

  /** The `name=value` pairs joined by `, `, stated independently of the
      writing loop: separators go between pairs, not before them. */
  function JoinPairs(attrs: seq<(DotValue, DotValue)>): string
    decreases |attrs|
  {
    if |attrs| == 0 then ""
    else if |attrs| == 1 then PairText(attrs[0])
    else PairText(attrs[0]) + (", " + JoinPairs(attrs[1..]))
  }

  /** A supported pair is written whole. */
  lemma PairOutSupported(attr: (DotValue, DotValue), first: bool)
    requires !attr.0.Unsupported? && !attr.1.Unsupported?
    ensures PairOut(attr, first) == Emitted(Lead(first, PairText(attr)), false)
  {
  }

  lemma AllSupportedTail(attrs: seq<(DotValue, DotValue)>, i: nat)
    requires i < |attrs| && AllSupported(attrs[i..])
    ensures AllSupported(attrs[i + 1..]) && !attrs[i].0.Unsupported? && !attrs[i].1.Unsupported?
    ensures attrs[i..][0] == attrs[i] && attrs[i..][1..] == attrs[i + 1..]
  {
    assert attrs[i..] == [attrs[i]] + attrs[i + 1..];
  }

  /** When every pair is supported, the loop writes them joined by `, `,
      with a leading separator unless it starts at the first pair. */
  lemma {:induction false} PairsJoin(attrs: seq<(DotValue, DotValue)>, i: nat)
    requires i < |attrs| && AllSupported(attrs[i..])
    ensures PairsFrom(attrs, i) == Emitted(Lead(i == 0, JoinPairs(attrs[i..])), false)
    decreases |attrs| - i
  {
    AllSupportedTail(attrs, i);
    PairOutSupported(attrs[i], i == 0);
    if i + 1 == |attrs| {
      assert attrs[i..] == [attrs[i]];
    } else {
      PairsJoin(attrs, i + 1);
      var t0, t := PairText(attrs[i]), JoinPairs(attrs[i + 1..]);
      assert JoinPairs(attrs[i..]) == t0 + (", " + t);
      if i > 0 {
        AppendAssoc(", ", t0, ", " + t);
      }
    }
  }

  /** What `attr_list` writes: nothing for no attributes; otherwise, when
      every name and value is supported, `" ["`, the pairs joined by `", "`,
      and `"]"`; and it raises exactly when one is not. */
  lemma AttrListText(attrs: seq<(DotValue, DotValue)>)
    ensures |attrs| == 0 ==> AttrListOut(attrs) == Emitted("", false)
    ensures AttrListOut(attrs).failed <==> !AllSupported(attrs)
    ensures |attrs| > 0 && AllSupported(attrs) ==> AttrListOut(attrs).text == " [" + JoinPairs(attrs) + "]"
  {
    if |attrs| > 0 {
      assert attrs[0..] == attrs;
      PairsFailIff(attrs, 0);
      if AllSupported(attrs) {
        PairsJoin(attrs, 0);
      }
    }
  }

  /** The text of `node`: a tab, the id, the attribute list and `;`. */
  function NodeOut(node: DotValue, attrs: seq<(DotValue, DotValue)>): Emitted {
    var id := IdOut(node);
    if id.failed then Emitted("\t", true)
    else
      var a := AttrListOut(attrs);
      if a.failed then Emitted("\t" + id.text + a.text, true)
      else Emitted("\t" + id.text + a.text + ";\n", false)
  }

  /** The text of `edge`: a tab, both ids around ` -> `, the attribute
      list and `;`. */
  function EdgeOut(src: DotValue, dst: DotValue, attrs: seq<(DotValue, DotValue)>): Emitted {
    var s, d := IdOut(src), IdOut(dst);
    if s.failed then Emitted("\t", true)
    else if d.failed then Emitted("\t" + s.text + " -> ", true)
    else
      var a := AttrListOut(attrs);
      if a.failed then Emitted("\t" + s.text + " -> " + d.text + a.text, true)
      else Emitted("\t" + s.text + " -> " + d.text + a.text + ";\n", false)
  }

  /** The text of `attr`: a tab, the statement kind, the attribute list
      and `;`. */
  function AttrOut(what: string, attrs: seq<(DotValue, DotValue)>): Emitted {
    var a := AttrListOut(attrs);
    if a.failed then Emitted("\t" + what + a.text, true)
    else Emitted("\t" + what + a.text + ";\n", false)
  }

  /** A statement whose ids are all supported is written whole: it starts
      with a tab and ends its line. */
  lemma StatementsEndLines(src: DotValue, dst: DotValue, attrs: seq<(DotValue, DotValue)>)
    requires !src.Unsupported? && !dst.Unsupported? && AllSupported(attrs)
    ensures !NodeOut(src, attrs).failed && !EdgeOut(src, dst, attrs).failed
    ensures NodeOut(src, attrs).text[0] == '\t' && EdgeOut(src, dst, attrs).text[0] == '\t'
    ensures var t := NodeOut(src, attrs).text; |t| >= 2 && t[|t| - 2..] == ";\n"
    ensures var t := EdgeOut(src, dst, attrs).text; |t| >= 2 && t[|t| - 2..] == ";\n"
  {
    AttrListText(attrs);
  }

  /** The writer: `out` is everything written to the file so far. */
  class Writer {
    var out: string

    constructor ()
      ensures out == ""
    {
      out := "";
    }

    method Write(s: string)
      modifies this
      ensures out == old(out) + s
    {
      out := out + s;
    }

    method BeginGraph()
      modifies this
      ensures out == old(out) + "digraph {\n"
    {
      Write("digraph {\n");
    }

    method EndGraph()
      modifies this
      ensures out == old(out) + "}\n"
    {
      Write("}\n");
    }

    /** `id`: raises `TypeError` for an unsupported value, writing nothing. */
    method Id(v: DotValue) returns (ok: bool)
      modifies this
      ensures ok == !IdOut(v).failed
      ensures ok ==> out == old(out) + IdOut(v).text
      ensures !ok ==> out == old(out)
    {
      var s: string;
      match v {
        case Num(n) =>
          s := IntToString(n);
        case Str(t) =>
          if IsAlnum(t) {
            s := t;
          } else {
            s := Escape(t);
          }
        case Unsupported =>
          return false;
      }
      Write(s);
      ok := true;
    }

    /** One turn of `attr_list`'s loop: the separator unless `first`, then
        `name=value`. */
    method Pair(attr: (DotValue, DotValue), first: bool) returns (ok: bool)
      modifies this
      ensures out == old(out) + PairOut(attr, first).text && ok == !PairOut(attr, first).failed
    {
      ghost var o := out;
      if !first {
        Write(", ");
      }
      ghost var o1 := out;
      ok := Id(attr.0);
      if !ok {
        if first {
          AppendEmpty(o);
        }
        return;
      }
      ghost var name := IdOut(attr.0).text;
      Write("=");
      ok := Id(attr.1);
      if !ok {
        AppendAssoc(o1, name, "=");
        if !first {
          AppendAssoc(o, ", ", name + "=");
        }
        return;
      }
      ghost var value := IdOut(attr.1).text;
      AppendAssoc(o1, name + "=", value);
      AppendAssoc(o1, name, "=");
      if !first {
        AppendAssoc(o, ", ", name + "=" + value);
      }
    }

    /** `attr_list`: the loop over the attributes with its `first` flag. */
    method AttrList(attrs: seq<(DotValue, DotValue)>) returns (ok: bool)
      modifies this
      ensures out == old(out) + AttrListOut(attrs).text && ok == !AttrListOut(attrs).failed
    {
      if |attrs| == 0 {
        AppendEmpty(out);
        return true;
      }
      Write(" [");
      ghost var start := out;
      ghost var pairs := PairsFrom(attrs, 0);
      ghost var done := "";
      AppendEmpty(start);
      AppendEmpty(pairs.text);
      var first := true;
      var i := 0;
      while i < |attrs|
        invariant 0 <= i <= |attrs| && first == (i == 0)
        invariant out == start + done
        invariant i < |attrs| ==> pairs == Emitted(done + PairsFrom(attrs, i).text, PairsFrom(attrs, i).failed)
        invariant i == |attrs| ==> pairs == Emitted(done, false)
      {
        ghost var p := PairOut(attrs[i], first);
        ok := Pair(attrs[i], first);
        AppendAssoc(start, done, p.text);
        if !ok {
          AppendAssoc(old(out), " [", done + p.text);
          return;
        }
        if i + 1 < |attrs| {
          AppendAssoc(done, p.text, PairsFrom(attrs, i + 1).text);
        }
        first := false;
        done := done + p.text;
        i := i + 1;
      }
      Write("]");
      ok := true;
      AppendAssoc(old(out), " [", done);
      AppendAssoc(old(out), " [" + done, "]");
    }

    method Node(node: DotValue, attrs: seq<(DotValue, DotValue)>) returns (ok: bool)
      modifies this
      ensures out == old(out) + NodeOut(node, attrs).text && ok == !NodeOut(node, attrs).failed
    {
      Write("\t");
      ok := Id(node);
      if !ok {
        return;
      }
      ghost var id := IdOut(node).text;
      ok := AttrList(attrs);
      ghost var a := AttrListOut(attrs).text;
      AppendAssoc(old(out), "\t", id);
      AppendAssoc(old(out), "\t" + id, a);
      if !ok {
        return;
      }
      Write(";\n");
      AppendAssoc(old(out), "\t" + id + a, ";\n");
    }

    method Edge(src: DotValue, dst: DotValue, attrs: seq<(DotValue, DotValue)>) returns (ok: bool)
      modifies this
      ensures out == old(out) + EdgeOut(src, dst, attrs).text && ok == !EdgeOut(src, dst, attrs).failed
    {
      Write("\t");
      ok := Id(src);
      if !ok {
        return;
      }
      ghost var s := IdOut(src).text;
      Write(" -> ");
      AppendAssoc(old(out), "\t", s);
      AppendAssoc(old(out), "\t" + s, " -> ");
      ok := Id(dst);
      if !ok {
        return;
      }
      ghost var d := IdOut(dst).text;
      AppendAssoc(old(out), "\t" + s + " -> ", d);
      ok := AttrList(attrs);
      ghost var a := AttrListOut(attrs).text;
      AppendAssoc(old(out), "\t" + s + " -> " + d, a);
      if !ok {
        return;
      }
      Write(";\n");
      AppendAssoc(old(out), "\t" + s + " -> " + d + a, ";\n");
    }

    method Attr(what: string, attrs: seq<(DotValue, DotValue)>) returns (ok: bool)
      modifies this
      ensures out == old(out) + AttrOut(what, attrs).text && ok == !AttrOut(what, attrs).failed
    {
      Write("\t");
      Write(what);
      AppendAssoc(old(out), "\t", what);
      ok := AttrList(attrs);
      ghost var a := AttrListOut(attrs).text;
      AppendAssoc(old(out), "\t" + what, a);
      if !ok {
        return;
      }
      Write(";\n");
      AppendAssoc(old(out), "\t" + what + a, ";\n");
    }
  }
}
