/** The PGFplots colormap declaration written by `ColorMap.toPGF`
    (axify/axify.py:143-161), and a reader for it that recovers the entries.

    The text is `colormap={NAME}{` followed by one entry per sample column and a
    closing `}`.  Each entry is a newline, eight spaces and
    `rgb(POS pt)=(R,G,B),`, with every entry comma-terminated, the last one
    included.  Numbers are turned into text by a formatter `fmt` that stands for
    Python's `str` on a float. */
module Pgf {
  import opened Wrappers
  import opened Text
  import opened Scale

  /** Characters Python's `str` can produce for a float ("0.25", "-1e-05", "inf", "nan"). */
  const NumeralChars: set<char> :=
    {'0', '1', '2', '3', '4', '5', '6', '7', '8', '9', '.', '-', '+', 'e', 'i', 'n', 'f', 'a'}

  predicate Numeral(t: string)
  {
    forall c :: c in t ==> c in NumeralChars
  }

  /** A formatter that, like `str` on floats, only ever writes numerals. */
  ghost predicate NumeralFormat(fmt: real -> string)
  {
    forall x :: Numeral(fmt(x))
  }

  /** The texts substituted into one entry: `%(pos)s` and the three channels of `%(col)s`. */
  datatype Entry = Entry(pos: string, red: string, green: string, blue: string)

  const EntryLead := "\n        rgb("

  function Header(name: string): string
  {
    "colormap={" + name + "}{"
  }

  /** One entry as `handleString % dct` writes it. */
  function EntryText(e: Entry): string
  {
    EntryLead + e.pos + " pt)=(" + e.red + "," + e.green + "," + e.blue + "),"
  }

  /** The entry for column `ii` of `n` sample columns: its position `ii/(n-1)`
      and the column's three channel values. */
  function EntryAt(fmt: real -> string, ii: nat, n: nat, c: Rgb): Entry
    requires n >= 2
  {
    Entry(fmt(Position(ii, n)), fmt(c.red), fmt(c.green), fmt(c.blue))
  }

  /** The entries for all sample columns, in column order.  A single column
      would divide by zero in the source, so it is excluded. */
  function Entries(cols: seq<Rgb>, fmt: real -> string): seq<Entry>
    requires |cols| != 1
  {
    seq(|cols|, ii requires 0 <= ii < |cols| => EntryAt(fmt, ii, |cols|, cols[ii]))
  }

  function Concat(es: seq<Entry>): string
  {
    if es == [] then "" else EntryText(es[0]) + Concat(es[1..])
  }

  lemma {:induction false} ConcatSnoc(es: seq<Entry>, e: Entry)
    ensures Concat(es + [e]) == Concat(es) + EntryText(e)
  {
    if es == [] {
      assert es + [e] == [e];
    } else {
      assert (es + [e])[1..] == es[1..] + [e];
      ConcatSnoc(es[1..], e);
    }
  }

  /** The text of the first `i + 1` entries is that of the first `i` followed by entry `i`. */
  lemma ConcatPrefix(es: seq<Entry>, i: nat)
    requires i < |es|
    ensures Concat(es[..i + 1]) == Concat(es[..i]) + EntryText(es[i])
  {
    assert es[..i + 1] == es[..i] + [es[i]];
    ConcatSnoc(es[..i], es[i]);
  }

  /** The whole declaration for the sample columns `cols` of the map `name`. */
  function Format(name: string, cols: seq<Rgb>, fmt: real -> string): (s: string)
    requires |cols| != 1
    ensures |s| > |Header(name)| && s[..|Header(name)|] == Header(name) && s[|s| - 1] == '}'
  {
    Header(name) + Concat(Entries(cols, fmt)) + "}"
  }

  /** The declaration opens with the name-tagged header, closes with `}`, and
      when it has entries the last of them is comma-terminated too. */
  lemma FormatShape(name: string, cols: seq<Rgb>, fmt: real -> string)
    requires |cols| != 1
    ensures var s := Format(name, cols, fmt);
      && |s| > |Header(name)|
      && s[..|Header(name)|] == Header(name)
      && s[|s| - 1] == '}'
      && (|cols| >= 2 ==> s[|s| - 2] == ',')
  {
    var es := Entries(cols, fmt);
    var s := Format(name, cols, fmt);
    assert s == Header(name) + (Concat(es) + "}");
    if |cols| >= 2 {
      var last := es[|es| - 1];
      assert es == es[..|es| - 1] + [last];
      ConcatSnoc(es[..|es| - 1], last);
      var t := EntryText(last);
      assert t[|t| - 1] == ',';
      assert Concat(es) + "}" == Concat(es[..|es| - 1]) + t + "}";
    }
  }

  // ---- reading a declaration back ----

  /** Reads one entry off the front of `s`; gives the entry and the remaining text. */
  function ParseEntry(s: string): (r: Option<(Entry, string)>)
    ensures r.Some? ==> |r.value.1| < |s|
  {
    var s1 :- StripPrefix(s, EntryLead);
    var p1 :- SplitAt(s1, ' ');
    var s2 :- StripPrefix(p1.1, "pt)=(");
    var p2 :- SplitAt(s2, ',');
    var p3 :- SplitAt(p2.1, ',');
    var p4 :- SplitAt(p3.1, ')');
    var rest :- StripPrefix(p4.1, ",");
    Some((Entry(p1.0, p2.0, p3.0, p4.0), rest))
  }

  /** Reads entries until the text is used up. */
  function ParseEntries(s: string): Option<seq<Entry>>
    decreases |s|
  {
    if s == [] then Some([])
    else
      var p :- ParseEntry(s);
      var rest :- ParseEntries(p.1);
      Some([p.0] + rest)
  }

  /** Reads the declaration of the map `name`: header, entries, closing brace. */
  function Parse(name: string, s: string): Option<seq<Entry>>
  {
    var body :- StripPrefix(s, Header(name));
    if |body| >= 1 && body[|body| - 1] == '}' then ParseEntries(body[..|body| - 1]) else None
  }

  /** An entry whose texts hold none of the delimiters that surround them. */
  predicate Plain(e: Entry)
  {
    ' ' !in e.pos && ',' !in e.red && ',' !in e.green && ')' !in e.blue
  }

  /** The text of an entry followed by `rest`, cut at the delimiters the reader looks for. */
  lemma EntryTextParts(e: Entry, rest: string)
    ensures EntryText(e) + rest ==
      EntryLead + (e.pos + [' '] + ("pt)=(" + (e.red + [','] + (e.green + [','] + (e.blue + [')'] + ("," + rest))))))
  {
    assert " pt)=(" == [' '] + "pt)=(";
    assert "),"  == [')'] + ",";
  }

  lemma ParseEntryOf(e: Entry, rest: string)
    requires Plain(e)
    ensures ParseEntry(EntryText(e) + rest) == Some((e, rest))
  {
    var x6 := "," + rest;
    var x5 := e.blue + [')'] + x6;
    var x4 := e.green + [','] + x5;
    var x3 := e.red + [','] + x4;
    var x2 := "pt)=(" + x3;
    var x1 := e.pos + [' '] + x2;
    var s := EntryText(e) + rest;
    assert StripPrefix(s, EntryLead) == Some(x1) by {
      EntryTextParts(e, rest);
      StripPrefixOf(EntryLead, x1);
    }
    assert SplitAt(x1, ' ') == Some((e.pos, x2)) by { SplitAtOf(e.pos, ' ', x2); }
    assert StripPrefix(x2, "pt)=(") == Some(x3) by { StripPrefixOf("pt)=(", x3); }
    assert SplitAt(x3, ',') == Some((e.red, x4)) by { SplitAtOf(e.red, ',', x4); }
    assert SplitAt(x4, ',') == Some((e.green, x5)) by { SplitAtOf(e.green, ',', x5); }
    assert SplitAt(x5, ')') == Some((e.blue, x6)) by { SplitAtOf(e.blue, ')', x6); }
    assert StripPrefix(x6, ",") == Some(rest) by { StripPrefixOf(",", rest); }
  }

  lemma {:induction false} ParseEntriesOf(es: seq<Entry>)
    requires forall i :: 0 <= i < |es| ==> Plain(es[i])
    ensures ParseEntries(Concat(es)) == Some(es)
  {
    if es != [] {
      ParseEntryOf(es[0], Concat(es[1..]));
      ParseEntriesOf(es[1..]);
      assert [es[0]] + es[1..] == es;
    }
  }

  lemma NumeralIsPlain(fmt: real -> string, ii: nat, n: nat, c: Rgb)
    requires NumeralFormat(fmt) && n >= 2
    ensures Plain(EntryAt(fmt, ii, n, c))
  {
    var e := EntryAt(fmt, ii, n, c);
    assert Numeral(e.pos) && Numeral(e.red) && Numeral(e.green) && Numeral(e.blue);
  }

  /** Reading back a declaration recovers exactly one entry per sample column,
      in column order: entry `ii` carries the position `ii/(N-1)` and the
      channel values of column `ii`. */
  lemma ParseFormat(name: string, cols: seq<Rgb>, fmt: real -> string)
    requires NumeralFormat(fmt) && |cols| != 1
    ensures var r := Parse(name, Format(name, cols, fmt));
      && r.Some?
      && |r.value| == |cols|
      && forall ii :: 0 <= ii < |cols| ==>
           r.value[ii] == Entry(fmt(Position(ii, |cols|)), fmt(cols[ii].red), fmt(cols[ii].green), fmt(cols[ii].blue))
  {
    var es := Entries(cols, fmt);
    forall i | 0 <= i < |es|
      ensures Plain(es[i])
    {
      NumeralIsPlain(fmt, i, |cols|, cols[i]);
    }
    ParseEntriesOf(es);
    StripPrefixOf(Header(name), Concat(es) + "}");
    assert Format(name, cols, fmt) == Header(name) + (Concat(es) + "}");
    assert (Concat(es) + "}")[..|Concat(es) + "}"| - 1] == Concat(es);
  }
}
