/**
 * The pure helpers of the results card (ResultsCard.tsx): the crop-name
 * formatter, the per-field "within 20% of ideal" test over the top crop's
 * ideal conditions, and the list of alternatives with their fertilizer badges.
 */
module ResultsCard {
  import opened Wrappers
  import opened Text
  import opened Soil
  import opened Ranking
  import Scoring

  /**
   * `s.split(sep)`: the pieces between separators, empty pieces included;
   * an empty string splits into one empty piece.
   */
  function Split(s: string, sep: char): (r: seq<string>)
    ensures |r| >= 1
  {
    if s == [] then [[]]
    else if s[0] == sep then [[]] + Split(s[1..], sep)
    else
      var rest := Split(s[1..], sep);
      [[s[0]] + rest[0]] + rest[1..]
  }

  /** `words.join(sep)`. */
  function Join(words: seq<string>, sep: char): string
  {
    if words == [] then []
    else if |words| == 1 then words[0]
    else words[0] + [sep] + Join(words[1..], sep)
  }

  /** `word.charAt(0).toUpperCase() + word.slice(1)`. */
  function Capitalize(word: string): string
  {
    if word == [] then [] else [UpperChar(word[0])] + word[1..]
  }

  function CapitalizeAll(words: seq<string>): (r: seq<string>)
    ensures |r| == |words|
  {
    seq(|words|, i requires 0 <= i < |words| => Capitalize(words[i]))
  }

  /** `formatCropName` (lines 24-29): split on `_`, capitalise each piece, join with spaces. */
  function FormatCropName(name: string): string
  {
    Join(CapitalizeAll(Split(name, '_')), ' ')
  }

  /**
   * The formatter read character by character: `_` becomes a space, a
   * character at the start of a piece is upper-cased, the others are kept.
   * `atStart` says whether the previous character ended a piece.
   */
  function Reformat(s: string, atStart: bool): string
  {
    if s == [] then []
    else if s[0] == '_' then " " + Reformat(s[1..], true)
    else [if atStart then UpperChar(s[0]) else s[0]] + Reformat(s[1..], false)
  }

  /** No piece of a split contains the separator. */
  lemma {:induction false} SplitPiecesLackSep(s: string, sep: char)
    ensures forall i :: 0 <= i < |Split(s, sep)| ==> sep !in Split(s, sep)[i]
  {
    if s != [] {
      SplitPiecesLackSep(s[1..], sep);
    }
  }

  /** Joining the pieces of a split gives back the string. */
  lemma {:induction false} JoinSplit(s: string, sep: char)
    ensures Join(Split(s, sep), sep) == s
  {
    if s != [] {
      var rest := Split(s[1..], sep);
      JoinSplit(s[1..], sep);
      if s[0] == sep {
        assert Split(s, sep) == [[]] + rest;
        assert ([[]] + rest)[1..] == rest;
      } else {
        var r := Split(s, sep);
        assert r[1..] == rest[1..];
        if |rest| > 1 {
          assert Join(rest, sep) == rest[0] + [sep] + Join(rest[1..], sep);
        }
      }
    }
  }

  /** Splitting a join of separator-free words gives back the words. */
  lemma {:induction false} SplitJoin(words: seq<string>, sep: char)
    requires words != []
    requires forall i :: 0 <= i < |words| ==> sep !in words[i]
    ensures Split(Join(words, sep), sep) == words
  {
    if |words| == 1 {
      SplitWord(words[0], [], sep);
    } else {
      var tail := Join(words[1..], sep);
      SplitJoin(words[1..], sep);
      SplitAfterSep(tail, sep);
      SplitWord(words[0], [sep] + tail, sep);
      assert Join(words, sep) == words[0] + ([sep] + tail);
      var st := Split([sep] + tail, sep);
      assert st[0] == [] && st[1..] == words[1..];
      assert words[0] + st[0] == words[0];
      assert words == [words[0]] + words[1..];
    }
  }

  /** A leading separator contributes one empty piece. */
  lemma SplitAfterSep(s: string, sep: char)
    ensures Split([sep] + s, sep) == [[]] + Split(s, sep)
  {
    assert ([sep] + s)[1..] == s;
  }

  /** A separator-free word is glued to the first piece of what follows it. */
  lemma {:induction false} SplitWord(w: string, s: string, sep: char)
    requires sep !in w
    requires s == [] || s[0] == sep
    ensures Split(w + s, sep) == [w + Split(s, sep)[0]] + Split(s, sep)[1..]
    ensures s == [] ==> Split(w, sep) == [w]
  {
    if w == [] {
      assert w + s == s;
    } else {
      SplitWord(w[1..], s, sep);
      assert (w + s)[1..] == w[1..] + s;
      assert [w[0]] + (w[1..] + Split(s, sep)[0]) == w + Split(s, sep)[0];
      if s == [] {
        assert w + s == w;
      }
    }
  }

  /** Starting a piece, `Reformat` capitalises every piece of the split. */
  predicate FormatsAll(s: string)
  {
    Reformat(s, true) == Join(CapitalizeAll(Split(s, '_')), ' ')
  }

  /** Inside a piece, `Reformat` capitalises every piece but the first. */
  predicate FormatsRest(s: string)
  {
    var pieces := Split(s, '_');
    Reformat(s, false) == Join([pieces[0]] + CapitalizeAll(pieces[1..]), ' ')
  }

  /**
   * `Reformat` agrees with the split/capitalise/join chain: starting a piece
   * it capitalises every piece, otherwise every piece but the first.
   */
  lemma {:induction false} ReformatIsFormat(s: string)
    ensures FormatsAll(s) && FormatsRest(s)
  {
    if s != [] {
      ReformatIsFormat(s[1..]);
      if s[0] == '_' {
        ReformatSepStep(s);
      } else {
        ReformatCharStep(s);
      }
    }
  }

  /** A leading `_` adds an empty piece and a space. */
  lemma ReformatSepStep(s: string)
    requires s != [] && s[0] == '_' && FormatsAll(s[1..])
    ensures FormatsAll(s) && FormatsRest(s)
  {
    var rest := Split(s[1..], '_');
    var caps := CapitalizeAll(rest);
    assert Split(s, '_') == [[]] + rest;
    assert ([[]] + rest)[1..] == rest;
    CapitalizeAllCons([], rest);
    JoinAfterEmpty(caps);
  }

  /** A leading character other than `_` joins the first piece, capitalised only at a piece start. */
  lemma ReformatCharStep(s: string)
    requires s != [] && s[0] != '_' && FormatsRest(s[1..])
    ensures FormatsAll(s) && FormatsRest(s)
  {
    var rest := Split(s[1..], '_');
    var first := [s[0]] + rest[0];
    var caps := CapitalizeAll(rest[1..]);
    assert Split(s, '_') == [first] + rest[1..];
    assert ([first] + rest[1..])[1..] == rest[1..];
    CapitalizeAllCons(first, rest[1..]);
    assert Capitalize(first) == [UpperChar(s[0])] + rest[0];
    JoinCons([UpperChar(s[0])], rest[0], caps);
    JoinCons([s[0]], rest[0], caps);
  }

  lemma CapitalizeAllCons(w: string, ws: seq<string>)
    ensures CapitalizeAll([w] + ws) == [Capitalize(w)] + CapitalizeAll(ws)
  {
  }

  /** An empty first word contributes just the separator. */
  lemma JoinAfterEmpty(words: seq<string>)
    requires words != []
    ensures Join([[]] + words, ' ') == " " + Join(words, ' ')
  {
    assert ([[]] + words)[1..] == words;
  }

  /** Putting a prefix before the first word puts it before the join. */
  lemma JoinCons(c: string, w: string, words: seq<string>)
    ensures Join([c + w] + words, ' ') == c + Join([w] + words, ' ')
  {
    assert ([c + w] + words)[1..] == words;
    assert ([w] + words)[1..] == words;
  }

  /** `Reformat` keeps the length and, character by character, replaces `_` and capitalises piece starts. */
  lemma {:induction false} ReformatCharwise(s: string, atStart: bool)
    ensures |Reformat(s, atStart)| == |s|
    ensures forall i {:trigger Reformat(s, atStart)[i]} :: 0 <= i < |s| ==>
      Reformat(s, atStart)[i] ==
        if s[i] == '_' then ' '
        else if (if i == 0 then atStart else s[i - 1] == '_') then UpperChar(s[i])
        else s[i]
  {
    if s != [] {
      ReformatCharwise(s[1..], s[0] == '_');
    }
  }

  /**
   * `formatCropName` keeps the length; every `_` becomes a space; the first
   * character of each piece is upper-cased and every other character is
   * unchanged. So the result holds no `_`.
   */
  lemma FormatCropNameCharwise(name: string)
    ensures |FormatCropName(name)| == |name|
    ensures forall i {:trigger FormatCropName(name)[i]} :: 0 <= i < |name| ==>
      FormatCropName(name)[i] ==
        if name[i] == '_' then ' '
        else if i == 0 || name[i - 1] == '_' then UpperChar(name[i])
        else name[i]
    ensures '_' !in FormatCropName(name)
  {
    ReformatIsFormat(name);
    ReformatCharwise(name, true);
    var r := FormatCropName(name);
    assert r == Reformat(name, true);
    forall i | 0 <= i < |name|
      ensures r[i] == if name[i] == '_' then ' '
        else if i == 0 || name[i - 1] == '_' then UpperChar(name[i])
        else name[i]
    {
      assert r[i] == Reformat(name, true)[i];
    }
    forall i | 0 <= i < |r| ensures r[i] != '_' {
      if name[i] != '_' && IsLowerAscii(name[i]) {
        assert 65 <= UpperChar(name[i]) as int <= 90;
      }
    }
  }

  /** For a name without spaces, the display has one space-separated word per `_`-separated piece, capitalised. */
  lemma FormatCropNameWords(name: string)
    requires ' ' !in name
    ensures Split(FormatCropName(name), ' ') == CapitalizeAll(Split(name, '_'))
  {
    var pieces := Split(name, '_');
    var caps := CapitalizeAll(pieces);
    SplitPiecesLackSep(name, '_');
    JoinSplit(name, '_');
    forall i | 0 <= i < |caps| ensures ' ' !in caps[i] {
      assert ' ' !in pieces[i] by {
        WordOfJoin(pieces, '_', i);
      }
    }
    SplitJoin(caps, ' ');
  }

  /** Every word of a join appears inside it. */
  lemma {:induction false} WordOfJoin(words: seq<string>, sep: char, i: nat)
    requires i < |words|
    ensures forall c :: c in words[i] ==> c in Join(words, sep)
  {
    if |words| > 1 && i > 0 {
      WordOfJoin(words[1..], sep, i - 1);
    }
  }

  /** A name of two `_`-free words joined by `_` displays as the two words capitalised, with a space. */
  lemma FormatTwoWords(w1: string, w2: string)
    requires w1 != [] && w2 != [] && '_' !in w1 && '_' !in w2
    ensures FormatCropName(w1 + "_" + w2) == Capitalize(w1) + " " + Capitalize(w2)
  {
    ReformatIsFormat(w1 + "_" + w2);
    ReformatWord(w1, w2);
    ReformatWord(w2, []);
  }

  /** The example the card shows: `pearl_millet` displays as `Pearl Millet`. */
  lemma PearlMilletDisplay()
    ensures FormatCropName("pearl_millet") == "Pearl Millet"
  {
    FormatTwoWords("pearl", "millet");
    assert "pearl" + "_" + "millet" == "pearl_millet";
    assert Capitalize("pearl") + " " + Capitalize("millet") == "Pearl Millet";
  }

  /** A `_`-free word, a `_` and the rest: the word capitalised, a space, and the rest reformatted. */
  lemma ReformatWord(w: string, rest: string)
    requires w != [] && '_' !in w
    ensures Reformat(w + "_" + rest, true) == [UpperChar(w[0])] + w[1..] + " " + Reformat(rest, true)
    ensures Reformat(w, true) == [UpperChar(w[0])] + w[1..]
  {
    ReformatPlain(w[1..], "_" + rest);
    ReformatPlain(w[1..], "");
    assert (w + "_" + rest)[1..] == w[1..] + ("_" + rest);
    assert w[1..] + "" == w[1..];
  }

  /** Inside a piece, `Reformat` copies the characters up to the next `_`. */
  lemma {:induction false} ReformatPlain(w: string, rest: string)
    requires '_' !in w
    requires rest == [] || rest[0] == '_'
    ensures Reformat(w + rest, false) == w + Reformat(rest, false)
  {
    if w == [] {
      assert w + rest == rest;
    } else {
      ReformatPlain(w[1..], rest);
      assert (w + rest)[1..] == w[1..] + rest;
    }
  }

  /**
   * `percentDiff` (line 98): the distance to the ideal as a percentage of the
   * ideal, or 0 when the ideal is 0.
   */
  function PercentDiff(current: real, ideal: real): (r: real)
    ensures ideal > 0.0 ==> r >= 0.0
    ensures current == ideal || ideal == 0.0 ==> r == 0.0
  {
    if ideal != 0.0 then Scoring.Abs(current - ideal) / ideal * 100.0 else 0.0
  }

  /** `isClose` (line 99): within 20% of the ideal. */
  predicate IsClose(current: real, ideal: real)
  {
    PercentDiff(current, ideal) < 20.0
  }

  /** For a positive ideal, close means the distance is under a fifth of the ideal. */
  lemma IsCloseIff(current: real, ideal: real)
    requires ideal > 0.0
    ensures IsClose(current, ideal) <==> Scoring.Abs(current - ideal) < ideal / 5.0
  {
    QuotientBelow(Scoring.Abs(current - ideal), ideal);
  }

  /** For a positive `ideal`, `d / ideal` as a percentage is under 20 exactly when `d` is under a fifth of `ideal`. */
  lemma QuotientBelow(d: real, ideal: real)
    requires ideal > 0.0
    ensures d / ideal * 100.0 < 20.0 <==> d < ideal / 5.0
  {
    var q := d / ideal;
    assert q * ideal == d;
    if q < 0.2 {
      assert q * ideal < 0.2 * ideal;
    } else {
      assert q * ideal >= 0.2 * ideal;
    }
  }

  /** One row of the "Ideal Growing Conditions" panel: field, ideal value, current value and closeness. */
  datatype ConditionRow = ConditionRow(field: Field, ideal: real, current: real, close: bool)

  /** The rows for the fields in `fields` that `ideal` gives, in that order. */
  function RowsFor(fields: seq<Field>, ideal: PartialSoil, s: SoilData): seq<ConditionRow>
  {
    if fields == [] then []
    else
      var f := fields[0];
      var rest := RowsFor(fields[1..], ideal, s);
      match IdealOf(ideal, f)
      case None => rest
      case Some(v) => [ConditionRow(f, v, Get(s, f), IsClose(Get(s, f), v))] + rest
  }

  /**
   * `Object.entries(idealConditions).map(...)` (lines 95-99): one row per field
   * the ideal gives, in the table's field order.
   */
  function IdealRows(ideal: PartialSoil, s: SoilData): seq<ConditionRow>
  {
    RowsFor(Fields, ideal, s)
  }

  /** Rows come only from present fields, carry the sample's reading and the closeness test, and every present field gets one. */
  lemma {:induction false} RowsForFaithful(fields: seq<Field>, ideal: PartialSoil, s: SoilData)
    ensures forall k :: 0 <= k < |RowsFor(fields, ideal, s)| ==>
      var row := RowsFor(fields, ideal, s)[k];
      row.field in fields && IdealOf(ideal, row.field) == Some(row.ideal) &&
      row.current == Get(s, row.field) && row.close == IsClose(row.current, row.ideal)
    ensures forall f :: f in fields && IdealOf(ideal, f).Some? ==>
      exists k :: 0 <= k < |RowsFor(fields, ideal, s)| && RowsFor(fields, ideal, s)[k].field == f
  {
    if fields != [] {
      RowsForFaithful(fields[1..], ideal, s);
      var f := fields[0];
      var rest := RowsFor(fields[1..], ideal, s);
      var rows := RowsFor(fields, ideal, s);
      if IdealOf(ideal, f).Some? {
        assert rows[0].field == f;
        forall g | g in fields && IdealOf(ideal, g).Some?
          ensures exists k :: 0 <= k < |rows| && rows[k].field == g
        {
          if g != f {
            var k :| 0 <= k < |rest| && rest[k].field == g;
            assert rows[k + 1] == rest[k];
          }
        }
      }
    }
  }

  /** The panel shows a row for exactly the fields the ideal gives, with the sample's reading. */
  lemma IdealRowsFaithful(ideal: PartialSoil, s: SoilData)
    ensures forall k :: 0 <= k < |IdealRows(ideal, s)| ==>
      var row := IdealRows(ideal, s)[k];
      IdealOf(ideal, row.field) == Some(row.ideal) &&
      row.current == Get(s, row.field) && row.close == IsClose(row.current, row.ideal)
    ensures forall f :: IdealOf(ideal, f).Some? ==>
      exists k :: 0 <= k < |IdealRows(ideal, s)| && IdealRows(ideal, s)[k].field == f
  {
    RowsForFaithful(Fields, ideal, s);
    assert IdealRows(ideal, s) == RowsFor(Fields, ideal, s);
    forall f | IdealOf(ideal, f).Some?
      ensures exists k :: 0 <= k < |IdealRows(ideal, s)| && IdealRows(ideal, s)[k].field == f
    {
      InFields(f);
    }
  }

  /** `Fields` lists every field. */
  lemma InFields(f: Field)
    ensures f in Fields
  {
    match f
    case Nitrogen => assert Fields[0] == f;
    case Phosphorus => assert Fields[1] == f;
    case Potassium => assert Fields[2] == f;
    case Temperature => assert Fields[3] == f;
    case Humidity => assert Fields[4] == f;
    case Ph => assert Fields[5] == f;
    case Rainfall => assert Fields[6] == f;
  }

  /** The placeholder ideal `{}` yields no rows; a complete ideal yields seven. */
  lemma IdealRowsCount(s: SoilData, n: real, p: real, k: real, t: real, h: real, ph: real, r: real)
    ensures IdealRows(NoConditions, s) == []
    ensures |IdealRows(AllFields(n, p, k, t, h, ph, r), s)| == 7
  {
    RowsForCount(Fields, NoConditions, s);
    RowsForCount(Fields, AllFields(n, p, k, t, h, ph, r), s);
  }

  /** With no field present there are no rows; with every field present, one row per field. */
  lemma {:induction false} RowsForCount(fields: seq<Field>, ideal: PartialSoil, s: SoilData)
    ensures (forall f :: IdealOf(ideal, f).None?) ==> RowsFor(fields, ideal, s) == []
    ensures (forall f :: IdealOf(ideal, f).Some?) ==> |RowsFor(fields, ideal, s)| == |fields|
  {
    if fields != [] {
      RowsForCount(fields[1..], ideal, s);
    }
  }

  /** `recommendations.slice(1)` (line 156): every recommendation after the first. */
  function Alternatives(recs: seq<CropRecommendation>): (r: seq<CropRecommendation>)
    ensures |r| == if recs == [] then 0 else |recs| - 1
    ensures forall i :: 0 <= i < |r| ==> r[i] == recs[i + 1]
  {
    if recs == [] then [] else recs[1..]
  }

  /** In a successful local ranking no alternative scores more than the top recommendation. */
  lemma AlternativesScoreNoMore(data: map<string, CropCatalog.CropInfo>, crops: seq<string>, s: SoilData, noise: seq<real>)
    requires |noise| >= TopCount && CropCatalog.AllKnown(crops, data)
    ensures Recommend(data, crops, s, noise).Success?
    ensures var recs := Recommend(data, crops, s, noise).value;
      forall a :: a in Alternatives(recs) ==> a.suitabilityScore <= recs[0].suitabilityScore
  {
    RecommendSorted(data, crops, s, noise);
    var recs := Recommend(data, crops, s, noise).value;
    forall a | a in Alternatives(recs) ensures a.suitabilityScore <= recs[0].suitabilityScore {
      var i :| 0 <= i < |Alternatives(recs)| && Alternatives(recs)[i] == a;
      assert a == recs[i + 1];
    }
  }

  /** The fertilizer badges of an alternative card: at most two names, then a "+k more" count. */
  datatype Badges = Badges(shown: seq<string>, more: Option<nat>)

  /**
   * Lines 188-197: `fertilizers.slice(0, 2)` and, when longer than two,
   * `+{length - 2} more`. The badges show the first names of the list, at
   * most two; the count appears exactly when names are hidden and gives how
   * many.
   */
  function FertilizerBadges(fertilizers: seq<string>): (b: Badges)
    ensures |b.shown| <= 2 && b.shown <= fertilizers
    ensures b.more.Some? <==> |fertilizers| > 2
    ensures |b.shown| + (if b.more.Some? then b.more.value else 0) == |fertilizers|
    ensures b.shown == fertilizers[..MinNat(2, |fertilizers|)]
    ensures b.more.Some? ==> b.more.value == |fertilizers| - 2
  {
    if |fertilizers| > 2 then Badges(fertilizers[..2], Some(|fertilizers| - 2))
    else Badges(fertilizers, None)
  }
}
