/**
 * The keyword scorer of the text path: a fixed, ordered table of six emotion
 * labels, each with a list that mixes English and Devanagari keywords, and
 * the loop that counts, per label, how many of its keywords occur in the
 * lower-cased, stripped text, keeping the labels with a positive count.
 */
module Keywords {
  import opened Signals
  import opened Text

  // The keyword lists of `emotion_keywords`.

  const HappyKeywords: seq<string> := ["happy", "joy", "excited", "great", "wonderful", "amazing", "fantastic", "love", "glad", "cheerful", "delighted", "thrilled", "excellent", "good", "awesome", "perfect", "खुश", "खुशी", "खुश हूँ", "मज़ा", "उत्साहित"]
  const SadKeywords: seq<string> := ["sad", "unhappy", "depressed", "lonely", "miserable", "down", "blue", "disappointed", "upset", "hurt", "heartbroken", "crying", "tears", "awful", "terrible", "bad", "उदास", "दुख", "टूट", "दुखी"]
  const AngryKeywords: seq<string> := ["angry", "mad", "furious", "irritated", "annoyed", "frustrated", "rage", "pissed", "hate", "disgusted", "outraged", "गुस्सा", "क्रोधित", "नाराज़"]
  const FearKeywords: seq<string> := ["scared", "afraid", "fear", "anxious", "worried", "nervous", "terrified", "frightened", "panic", "डर", "घबराहट", "डरा"]
  const SurpriseKeywords: seq<string> := ["surprised", "shocked", "amazed", "astonished", "wow", "incredible", "unbelievable", "हैरान", "चकित"]
  const NeutralKeywords: seq<string> := ["okay", "fine", "alright", "normal", "meh", "whatever", "ठीक", "अच्छा", "सामान्य"]

  /** `emotion_keywords`, in its insertion order (happy, sad, angry, fear, surprise, neutral). */
  const Table: seq<(string, seq<string>)> := [
    ("happy", HappyKeywords),
    ("sad", SadKeywords),
    ("angry", AngryKeywords),
    ("fear", FearKeywords),
    ("surprise", SurpriseKeywords),
    ("neutral", NeutralKeywords)
  ]

  predicate NoDuplicates(s: seq<string>) {
    forall i, j :: 0 <= i < j < |s| ==> s[i] != s[j]
  }

  /** A usable keyword list: no keyword twice and no empty keyword (which would occur in every text). */
  predicate WellFormedKeywords(s: seq<string>) {
    NoDuplicates(s) && forall i :: 0 <= i < |s| ==> s[i] != ""
  }

  /** The happy list (the longest, 21 keywords) is well formed. */
  lemma HappyKeywordsWellFormed()
    ensures WellFormedKeywords(HappyKeywords)
  {
    assert NoDuplicates(HappyKeywords);
  }

  /** The sad list is well formed. */
  lemma SadKeywordsWellFormed()
    ensures WellFormedKeywords(SadKeywords)
  {
    assert NoDuplicates(SadKeywords);
  }

  /** The angry list is well formed. */
  lemma AngryKeywordsWellFormed()
    ensures WellFormedKeywords(AngryKeywords)
  {
    assert NoDuplicates(AngryKeywords);
  }

  /** The fear, surprise and neutral lists are well formed. */
  lemma OtherKeywordsWellFormed()
    ensures WellFormedKeywords(FearKeywords)
    ensures WellFormedKeywords(SurpriseKeywords)
    ensures WellFormedKeywords(NeutralKeywords)
  {
    assert NoDuplicates(FearKeywords);
    assert NoDuplicates(SurpriseKeywords);
    assert NoDuplicates(NeutralKeywords);
  }

  /** The six labels are distinct, and no list repeats a keyword or holds the empty string. */
  lemma TableWellFormed()
    ensures |Table| == 6
    ensures DistinctLabels(Table)
    ensures forall t :: 0 <= t < |Table| ==> NoDuplicates(Table[t].1)
    ensures forall t, i :: 0 <= t < |Table| && 0 <= i < |Table[t].1| ==> Table[t].1[i] != ""
  {
    HappyKeywordsWellFormed();
    SadKeywordsWellFormed();
    AngryKeywordsWellFormed();
    OtherKeywordsWellFormed();
    assert forall t :: 0 <= t < |Table| ==> WellFormedKeywords(Table[t].1);
  }

  /** The number of keywords of the list that occur in the text, each counted once per list entry. */
  function Count(text: string, keywords: seq<string>): (n: nat)
    ensures n <= |keywords|
    ensures n == 0 <==> forall i :: 0 <= i < |keywords| ==> !Occurs(keywords[i], text)
    ensures n == |keywords| <==> forall i :: 0 <= i < |keywords| ==> Occurs(keywords[i], text)
  {
    if keywords == [] then 0
    else
      assert forall i :: 1 <= i < |keywords| ==> keywords[i] == keywords[1..][i - 1];
      (if Occurs(keywords[0], text) then 1 else 0) + Count(text, keywords[1..])
  }

  /** The keywords of a list that occur in the text. */
  ghost function Matches(text: string, keywords: seq<string>): set<string> {
    set k | k in keywords && Occurs(k, text)
  }

  /** On a list without repeats, the count is the number of distinct matching keywords. */
  lemma {:induction false} CountIsDistinctMatches(text: string, keywords: seq<string>)
    requires NoDuplicates(keywords)
    ensures Count(text, keywords) == |Matches(text, keywords)|
  {
    if keywords != [] {
      var rest := keywords[1..];
      assert NoDuplicates(rest) by {
        forall i, j | 0 <= i < j < |rest| ensures rest[i] != rest[j] {
          assert rest[i] == keywords[i + 1] && rest[j] == keywords[j + 1];
        }
      }
      CountIsDistinctMatches(text, rest);
      assert keywords[0] !in rest by {
        forall i | 0 <= i < |rest| ensures rest[i] != keywords[0] {
          assert rest[i] == keywords[i + 1];
        }
      }
      if Occurs(keywords[0], text) {
        assert Matches(text, keywords) == Matches(text, rest) + {keywords[0]};
      } else {
        assert Matches(text, keywords) == Matches(text, rest);
      }
    }
  }

  /** The entries of `emotion_scores` after the loop has visited the rows `tbl`, in insertion order. */
  function ScoresOf(text: string, tbl: seq<(string, seq<string>)>): (r: seq<(string, nat)>)
    ensures |r| <= |tbl|
    ensures forall j :: 0 <= j < |r| ==> r[j].1 > 0
  {
    if tbl == [] then []
    else
      var last := tbl[|tbl| - 1];
      var n := Count(text, last.1);
      ScoresOf(text, tbl[..|tbl| - 1]) + (if n > 0 then [(last.0, n)] else [])
  }

  /** `emotion_scores` for the whole table. */
  function KeywordScores(text: string): seq<(string, nat)> {
    ScoresOf(text, Table)
  }

  /** The table row each entry of ScoresOf came from. */
  ghost function Origin(text: string, tbl: seq<(string, seq<string>)>): seq<nat> {
    if tbl == [] then []
    else
      var n := Count(text, tbl[|tbl| - 1].1);
      Origin(text, tbl[..|tbl| - 1]) + (if n > 0 then [|tbl| - 1] else [])
  }

  /** The rows ScoresOf keeps are rows of the table, in table order, and every row with a positive count is kept. */
  lemma {:induction false} OriginRows(text: string, tbl: seq<(string, seq<string>)>)
    ensures forall j :: 0 <= j < |Origin(text, tbl)| ==> Origin(text, tbl)[j] < |tbl|
    ensures forall j1, j2 :: 0 <= j1 < j2 < |Origin(text, tbl)| ==> Origin(text, tbl)[j1] < Origin(text, tbl)[j2]
    ensures forall t :: 0 <= t < |tbl| && Count(text, tbl[t].1) > 0 ==> t in Origin(text, tbl)
  {
    if tbl != [] {
      var init := tbl[..|tbl| - 1];
      var n := Count(text, tbl[|tbl| - 1].1);
      OriginRows(text, init);
      var oi, o := Origin(text, init), Origin(text, tbl);
      assert forall t :: 0 <= t < |init| ==> init[t] == tbl[t];
      if n > 0 {
        assert o == oi + [|tbl| - 1];
      } else {
        assert o == oi;
      }
    }
  }

  /**
   * What ScoresOf keeps: one entry per kept row, in the rows' order (see
   * OriginRows), each its row's label with its row's count.
   */
  lemma {:induction false} OriginSpec(text: string, tbl: seq<(string, seq<string>)>)
    ensures |Origin(text, tbl)| == |ScoresOf(text, tbl)|
    ensures forall j :: 0 <= j < |Origin(text, tbl)| ==>
      Origin(text, tbl)[j] < |tbl|
      && ScoresOf(text, tbl)[j] == (tbl[Origin(text, tbl)[j]].0, Count(text, tbl[Origin(text, tbl)[j]].1))
  {
    OriginRows(text, tbl);
    if tbl != [] {
      var init := tbl[..|tbl| - 1];
      var last := tbl[|tbl| - 1];
      var n := Count(text, last.1);
      OriginSpec(text, init);
      var oi, ri := Origin(text, init), ScoresOf(text, init);
      var o, r := Origin(text, tbl), ScoresOf(text, tbl);
      assert forall t :: 0 <= t < |init| ==> init[t] == tbl[t];
      if n > 0 {
        assert o == oi + [|tbl| - 1];
        assert r == ri + [(last.0, n)];
        assert forall j :: 0 <= j < |oi| ==> o[j] == oi[j] && r[j] == ri[j];
      } else {
        assert o == oi && r == ri;
      }
    }
  }

  /**
   * The scoring loop: `emotion_scores` is filled one row at a time, in table
   * order; on the app's table (`Table`) it computes KeywordScores.
   */
  method ScoreKeywords(text: string, tbl: seq<(string, seq<string>)>) returns (scores: seq<(string, nat)>)
    ensures scores == ScoresOf(text, tbl)
  {
    scores := [];
    for i := 0 to |tbl|
      invariant scores == ScoresOf(text, tbl[..i])
    {
      var (emotion, keywords) := tbl[i];
      var score := Count(text, keywords);
      if score > 0 {
        scores := scores + [(emotion, score)];
      }
      assert tbl[..i + 1][..i] == tbl[..i];
    }
    assert tbl[..|tbl|] == tbl;
  }

  /** The row of `emotion` in `tbl`: the first row carrying that label, or `|tbl|` when none does. */
  function RowOf(emotion: string, tbl: seq<(string, seq<string>)>): (t: nat)
    ensures t <= |tbl|
    ensures t < |tbl| ==> tbl[t].0 == emotion
    ensures forall u :: 0 <= u < t ==> tbl[u].0 != emotion
  {
    if tbl == [] || tbl[0].0 == emotion then 0
    else
      assert forall u :: 1 <= u < |tbl| ==> tbl[u] == tbl[1..][u - 1];
      1 + RowOf(emotion, tbl[1..])
  }

  /**
   * Keyword counting: a label of the table is kept in emotion_scores exactly
   * when one of its keywords occurs in the text, and then with the number of
   * its distinct keywords that occur, which lies between 1 and its list's length.
   */
  lemma KeywordScoresSpec(text: string, t: nat)
    requires t < |Table|
    ensures (exists j :: 0 <= j < |KeywordScores(text)| && KeywordScores(text)[j].0 == Table[t].0)
      <==> exists i :: 0 <= i < |Table[t].1| && Occurs(Table[t].1[i], text)
    ensures forall j :: 0 <= j < |KeywordScores(text)| && KeywordScores(text)[j].0 == Table[t].0 ==>
      && KeywordScores(text)[j].1 == |Matches(text, Table[t].1)|
      && 1 <= KeywordScores(text)[j].1 <= |Table[t].1|
  {
    TableWellFormed();
    OriginSpec(text, Table);
    OriginRows(text, Table);
    CountIsDistinctMatches(text, Table[t].1);
    var r, o := KeywordScores(text), Origin(text, Table);
    var c := Count(text, Table[t].1);
    forall j | 0 <= j < |r| && r[j].0 == Table[t].0
      ensures r[j].1 == c
    {
      assert Table[o[j]].0 == Table[t].0;
    }
    if c > 0 {
      var j :| 0 <= j < |o| && o[j] == t;
      assert r[j].0 == Table[t].0;
    }
  }

  /** No two rows of `tbl` carry the same label. */
  predicate DistinctLabels(tbl: seq<(string, seq<string>)>) {
    forall t, u :: 0 <= t < u < |tbl| ==> tbl[t].0 != tbl[u].0
  }

  /**
   * Every kept entry carries the label of the row it came from, and the
   * entries follow the table's order, so no label is kept twice.
   */
  lemma ScoresLabelsIn(text: string, tbl: seq<(string, seq<string>)>)
    requires DistinctLabels(tbl)
    ensures |Origin(text, tbl)| == |ScoresOf(text, tbl)|
    ensures forall j :: 0 <= j < |ScoresOf(text, tbl)| ==> RowOf(ScoresOf(text, tbl)[j].0, tbl) == Origin(text, tbl)[j]
    ensures forall j1, j2 :: 0 <= j1 < j2 < |ScoresOf(text, tbl)| ==>
      RowOf(ScoresOf(text, tbl)[j1].0, tbl) < RowOf(ScoresOf(text, tbl)[j2].0, tbl)
  {
    OriginSpec(text, tbl);
    OriginRows(text, tbl);
    var r, o := ScoresOf(text, tbl), Origin(text, tbl);
    forall j | 0 <= j < |r|
      ensures RowOf(r[j].0, tbl) == o[j]
    {
      var t := RowOf(r[j].0, tbl);
      assert tbl[o[j]].0 == r[j].0;
      assert t <= o[j];
      assert t < |tbl| && tbl[t].0 == tbl[o[j]].0;
    }
  }

  /** The labels of emotion_scores are table labels, kept at most once each, in table order. */
  lemma KeywordScoresLabels(text: string)
    ensures forall j :: 0 <= j < |KeywordScores(text)| ==> RowOf(KeywordScores(text)[j].0, Table) < |Table|
    ensures forall j1, j2 :: 0 <= j1 < j2 < |KeywordScores(text)| ==>
      RowOf(KeywordScores(text)[j1].0, Table) < RowOf(KeywordScores(text)[j2].0, Table)
  {
    TableWellFormed();
    OriginSpec(text, Table);
    OriginRows(text, Table);
    ScoresLabelsIn(text, Table);
  }

  /** Every label kept in emotion_scores is a non-empty table label, so a keyword winner is always truthy. */
  lemma KeywordLabelsNonEmpty(text: string)
    ensures forall j :: 0 <= j < |KeywordScores(text)| ==> KeywordScores(text)[j].0 != ""
  {
    KeywordScoresLabels(text);
    var r := KeywordScores(text);
    forall j | 0 <= j < |r|
      ensures r[j].0 != ""
    {
      var t := RowOf(r[j].0, Table);
      assert Table[t].0 == r[j].0;
      assert Table[t].0 in ["happy", "sad", "angry", "fear", "surprise", "neutral"];
    }
  }
}
