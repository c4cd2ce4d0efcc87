/** The high-score table: for every (game type, difficulty) pair, a list of
    at most five entries ordered from the best score down. */
module HighScores {

  /** Maximum number of high scores per game type and difficulty. */
  const MAX_HIGH_SCORES := 5

  datatype Entry = Entry(name: string, score: int, balls: int)

  /** Score lists keyed by game type, then by difficulty. */
  type Table = map<int, map<int, seq<Entry>>>

  /** The list stored for a game type and difficulty, or the empty list. */
  function Lookup(table: Table, gameType: int, difficulty: int): seq<Entry> {
    if gameType in table && difficulty in table[gameType] then table[gameType][difficulty] else []
  }

  /** Scores never increase along the list. */
  predicate Sorted(l: seq<Entry>) {
    forall i, j :: 0 <= i < j < |l| ==> l[i].score >= l[j].score
  }

  /** Every stored list is sorted and within the limit. */
  predicate WellFormed(table: Table) {
    forall t, d :: t in table && d in table[t] ==>
      Sorted(table[t][d]) && |table[t][d]| <= MAX_HIGH_SCORES
  }

  /** Whether a score deserves a place in the list l. */
  predicate Qualifies(l: seq<Entry>, score: int) {
    if score <= 0 then false
    else if |l| < MAX_HIGH_SCORES then true
    else score > l[MAX_HIGH_SCORES - 1].score
  }

  /** Index of the first entry whose score is strictly smaller than score,
      or |l| if there is none. */
  function FirstSmaller(l: seq<Entry>, score: int): (i: nat)
    ensures i <= |l|
    ensures forall k :: 0 <= k < i ==> l[k].score >= score
    ensures i < |l| ==> l[i].score < score
  {
    if l == [] then 0
    else if score > l[0].score then 0
    else 1 + FirstSmaller(l[1..], score)
  }

  /** The list l after adding e: e goes just before the first strictly worse
      entry, the list is cut back to the limit if that made it too long, and
      with no worse entry e is appended only if there is room. */
  function Inserted(l: seq<Entry>, e: Entry): seq<Entry> {
    var i := FirstSmaller(l, e.score);
    if i < |l| then
      var grown := l[..i] + [e] + l[i..];
      if |grown| > MAX_HIGH_SCORES then grown[..|grown| - 1] else grown
    else if |l| < MAX_HIGH_SCORES then l + [e]
    else l
  }

  /** The table after adding e for a game type and difficulty; missing keys
      are created first. */
  function WithHighScore(table: Table, gameType: int, difficulty: int, e: Entry): Table {
    var row := if gameType in table then table[gameType] else map[];
    var l := if difficulty in row then row[difficulty] else [];
    table[gameType := row[difficulty := Inserted(l, e)]]
  }

  class Scores {
    /** The stored lists, as read from the scores file. */
    var scores: Table

    /** A table holding the lists already read from disk. */
    constructor (loaded: Table)
      ensures scores == loaded
    {
      scores := loaded;
    }

    /** The list for a game type and difficulty; the empty list if none was
        ever stored. */
    function GetHighScores(gameType: int, difficulty: int): (r: seq<Entry>)
      reads this
      ensures gameType !in scores ==> r == []
      ensures gameType in scores && difficulty !in scores[gameType] ==> r == []
      ensures gameType in scores && difficulty in scores[gameType] ==> r == scores[gameType][difficulty]
    {
      Lookup(scores, gameType, difficulty)
    }

    /** Whether score would enter the list for this game type and
        difficulty: it must be positive, and beat the fifth entry when the
        list is full. */
    predicate IsHighScore(gameType: int, difficulty: int, score: int)
      reads this
      ensures IsHighScore(gameType, difficulty, score) ==> score > 0
      ensures score > 0 && |GetHighScores(gameType, difficulty)| < MAX_HIGH_SCORES ==>
                IsHighScore(gameType, difficulty, score)
      ensures |GetHighScores(gameType, difficulty)| >= MAX_HIGH_SCORES ==>
                (IsHighScore(gameType, difficulty, score) <==>
                   score > 0 && score > GetHighScores(gameType, difficulty)[MAX_HIGH_SCORES - 1].score)
    {
      Qualifies(GetHighScores(gameType, difficulty), score)
    }

    /** Adds an entry to the list for a game type and difficulty. */
    method AddHighScore(gameType: int, difficulty: int, name: string, score: int, balls: int)
      modifies this
      ensures scores == WithHighScore(old(scores), gameType, difficulty, Entry(name, score, balls))
      ensures old(IsHighScore(gameType, difficulty, score)) && Sorted(old(GetHighScores(gameType, difficulty))) ==>
                Entry(name, score, balls) in GetHighScores(gameType, difficulty)
    {
      // The inner map and the list, created empty if they do not exist yet.
      var row := if gameType in scores then scores[gameType] else map[];
      var list := if difficulty in row then row[difficulty] else [];
      var entry := Entry(name, score, balls);
      list := InsertEntry(list, entry);
      scores := scores[gameType := row[difficulty := list]];
      QualifyingEntryIsStored(old(scores), gameType, difficulty, entry);
    }
  }

  /** The loop of adding an entry: it computes the list Inserted describes. */
  method InsertEntry(list0: seq<Entry>, entry: Entry) returns (list: seq<Entry>)
    ensures list == Inserted(list0, entry)
  {
    list := list0;
    // Look for the first strictly worse score.
    var i := 0;
    while i < |list| && entry.score <= list[i].score
      invariant 0 <= i <= |list|
      invariant forall k :: 0 <= k < i ==> list[k].score >= entry.score
    {
      i := i + 1;
    }
    assert i == FirstSmaller(list0, entry.score);
    if i < |list| {
      // Put the entry before the worse one and drop the last entry if the
      // list grew past the limit.
      list := list[..i] + [entry] + list[i..];
      if |list| > MAX_HIGH_SCORES {
        list := list[..|list| - 1];
      }
    } else if |list| < MAX_HIGH_SCORES {
      // No worse score: append if there is room.
      list := list + [entry];
    }
  }

  /** Adding keeps the list ordered from the best score down. */
  lemma InsertedKeepsOrder(l: seq<Entry>, e: Entry)
    requires Sorted(l)
    ensures Sorted(Inserted(l, e))
  {
    var i := FirstSmaller(l, e.score);
    if i < |l| {
      var grown := l[..i] + [e] + l[i..];
      InsertAtIndexing(l, i, e);
      forall a, b | 0 <= a < b < |grown| ensures grown[a].score >= grown[b].score {
        if b < i {
          assert grown[a] == l[a] && grown[b] == l[b];
        } else if b == i {
          assert grown[a] == l[a];
        } else if a < i {
          assert grown[a] == l[a] && grown[b] == l[b - 1];
        } else if a > i {
          assert grown[a] == l[a - 1] && grown[b] == l[b - 1];
        } else {
          assert l[i].score >= l[b - 1].score;
        }
      }
      if |grown| > MAX_HIGH_SCORES {
        SortedPrefix(grown, |grown| - 1);
        assert Inserted(l, e) == grown[..|grown| - 1];
      } else {
        assert Inserted(l, e) == grown;
      }
    } else if |l| < MAX_HIGH_SCORES {
      assert forall k :: 0 <= k < |l| ==> l[k].score >= e.score;
      assert Inserted(l, e) == l + [e];
    }
  }

  /** Every prefix of a sorted list is sorted. */
  lemma SortedPrefix(l: seq<Entry>, n: nat)
    requires Sorted(l) && n <= |l|
    ensures Sorted(l[..n])
  {
  }

  /** A list within the limit grows by one entry, up to the limit. */
  lemma InsertedLength(l: seq<Entry>, e: Entry)
    requires |l| <= MAX_HIGH_SCORES
    ensures |Inserted(l, e)| == if |l| < MAX_HIGH_SCORES then |l| + 1 else MAX_HIGH_SCORES
  {
  }

  /** A full list with no worse entry is left alone. */
  lemma FullListWithoutWorseUnchanged(l: seq<Entry>, e: Entry)
    requires |l| >= MAX_HIGH_SCORES
    requires forall k :: 0 <= k < |l| ==> l[k].score >= e.score
    ensures Inserted(l, e) == l
  {
  }

  /** The new entry lands after every entry at least as good (so ties keep
      the older entries first) and before every worse one. */
  lemma InsertedPlacement(l: seq<Entry>, e: Entry)
    requires Sorted(l)
    requires FirstSmaller(l, e.score) < |l| || |l| < MAX_HIGH_SCORES
    ensures FirstSmaller(l, e.score) < |Inserted(l, e)|
    ensures Inserted(l, e)[FirstSmaller(l, e.score)] == e
    ensures forall k :: 0 <= k < FirstSmaller(l, e.score) ==> Inserted(l, e)[k] == l[k]
    ensures forall k :: FirstSmaller(l, e.score) < k < |Inserted(l, e)| ==>
              Inserted(l, e)[k] == l[k - 1] && Inserted(l, e)[k].score < e.score
  {
    var i := FirstSmaller(l, e.score);
    if i < |l| {
      InsertAtIndexing(l, i, e);
      AfterFirstSmaller(l, e.score);
    } else {
      assert Inserted(l, e) == l + [e];
    }
  }

  /** Where each element of l[..i] + [e] + l[i..] comes from. */
  lemma InsertAtIndexing(l: seq<Entry>, i: nat, e: Entry)
    requires i <= |l|
    ensures var g := l[..i] + [e] + l[i..];
      && |g| == |l| + 1 && g[i] == e
      && (forall k :: 0 <= k < i ==> g[k] == l[k])
      && (forall k :: i < k < |g| ==> g[k] == l[k - 1])
  {
  }

  /** In a sorted list every entry from the first worse one on is worse. */
  lemma AfterFirstSmaller(l: seq<Entry>, score: int)
    requires Sorted(l)
    ensures forall j :: FirstSmaller(l, score) <= j < |l| ==> l[j].score < score
  {
    var i := FirstSmaller(l, score);
    forall j | i <= j < |l| ensures l[j].score < score {
      assert l[i].score >= l[j].score;
    }
  }

  /** Adding to a sorted list within the limit changes it exactly when the
      score qualifies, and a qualifying entry is then in the list. */
  lemma QualifiesIffChanged(l: seq<Entry>, e: Entry)
    requires Sorted(l) && |l| <= MAX_HIGH_SCORES && e.score > 0
    ensures Qualifies(l, e.score) <==> Inserted(l, e) != l
    ensures Qualifies(l, e.score) ==> e in Inserted(l, e)
  {
    var i := FirstSmaller(l, e.score);
    if Qualifies(l, e.score) {
      QualifyingEntryIsKept(l, e);
      if |l| < MAX_HIGH_SCORES {
        assert |Inserted(l, e)| == |l| + 1;
      } else {
        var r := Inserted(l, e);
        assert i < |l| by {
          assert l[MAX_HIGH_SCORES - 1].score < e.score;
        }
        assert r[i] == e && l[i].score < e.score;
      }
    } else {
      assert |l| == MAX_HIGH_SCORES;
      forall k | 0 <= k < |l| ensures l[k].score >= e.score {
        assert l[k].score >= l[MAX_HIGH_SCORES - 1].score;
      }
      assert i == |l|;
    }
  }

  /** A qualifying entry added to a sorted list is in the result. */
  lemma QualifyingEntryIsKept(l: seq<Entry>, e: Entry)
    requires Sorted(l) && Qualifies(l, e.score)
    ensures e in Inserted(l, e)
  {
    var i := FirstSmaller(l, e.score);
    if |l| >= MAX_HIGH_SCORES {
      assert l[MAX_HIGH_SCORES - 1].score < e.score;
      assert i < MAX_HIGH_SCORES;
      var grown := l[..i] + [e] + l[i..];
      assert grown[i] == e;
      if |grown| > MAX_HIGH_SCORES {
        assert grown[..|grown| - 1][i] == e;
      }
    } else if i < |l| {
      var grown := l[..i] + [e] + l[i..];
      assert grown[i] == e;
    } else {
      assert (l + [e])[|l|] == e;
    }
  }

  /** A qualifying entry added to a sorted stored list is found there
      afterwards. */
  lemma QualifyingEntryIsStored(table: Table, gameType: int, difficulty: int, e: Entry)
    ensures Qualifies(Lookup(table, gameType, difficulty), e.score) && Sorted(Lookup(table, gameType, difficulty)) ==>
              e in Lookup(WithHighScore(table, gameType, difficulty, e), gameType, difficulty)
  {
    var l := Lookup(table, gameType, difficulty);
    if Qualifies(l, e.score) && Sorted(l) {
      QualifyingEntryIsKept(l, e);
      assert Lookup(WithHighScore(table, gameType, difficulty, e), gameType, difficulty) == Inserted(l, e);
    }
  }

  /** Adding never invents or duplicates entries: the result holds the old
      entries and e, minus at most the last one when the list was full. */
  lemma InsertedContents(l: seq<Entry>, e: Entry)
    ensures multiset(Inserted(l, e)) <= multiset(l) + multiset{e}
    ensures |l| < MAX_HIGH_SCORES ==> multiset(Inserted(l, e)) == multiset(l) + multiset{e}
  {
    var i := FirstSmaller(l, e.score);
    if i < |l| {
      var grown := l[..i] + [e] + l[i..];
      InsertAtContents(l, i, e);
      if |grown| > MAX_HIGH_SCORES {
        assert Inserted(l, e) == grown[..|grown| - 1];
        DropLastContents(grown);
      } else {
        assert Inserted(l, e) == grown;
      }
    } else if |l| < MAX_HIGH_SCORES {
      assert Inserted(l, e) == l + [e];
      assert multiset(l + [e]) == multiset(l) + multiset{e};
    } else {
      assert Inserted(l, e) == l;
    }
  }

  lemma InsertAtContents(l: seq<Entry>, i: nat, e: Entry)
    requires i <= |l|
    ensures multiset(l[..i] + [e] + l[i..]) == multiset(l) + multiset{e}
  {
    assert l == l[..i] + l[i..];
  }

  lemma DropLastContents(g: seq<Entry>)
    requires g != []
    ensures multiset(g[..|g| - 1]) <= multiset(g)
  {
    assert g == g[..|g| - 1] + [g[|g| - 1]];
  }

  /** Adding touches only the list for its own game type and difficulty,
      which becomes the old list with the entry added. */
  lemma OtherListsUnchanged(table: Table, gameType: int, difficulty: int, e: Entry, t: int, d: int)
    ensures Lookup(WithHighScore(table, gameType, difficulty, e), gameType, difficulty) ==
              Inserted(Lookup(table, gameType, difficulty), e)
    ensures (t, d) != (gameType, difficulty) ==>
              Lookup(WithHighScore(table, gameType, difficulty, e), t, d) == Lookup(table, t, d)
    ensures WithHighScore(table, gameType, difficulty, e).Keys == table.Keys + {gameType}
  {
  }

  /** Adding keeps every list sorted and within the limit. */
  lemma WithHighScoreWellFormed(table: Table, gameType: int, difficulty: int, e: Entry)
    requires WellFormed(table)
    ensures WellFormed(WithHighScore(table, gameType, difficulty, e))
  {
    var l := Lookup(table, gameType, difficulty);
    InsertedKeepsOrder(l, e);
    InsertedLength(l, e);
    var r := WithHighScore(table, gameType, difficulty, e);
    forall t, d | t in r && d in r[t]
      ensures Sorted(r[t][d]) && |r[t][d]| <= MAX_HIGH_SCORES
    {
      OtherListsUnchanged(table, gameType, difficulty, e, t, d);
      if (t, d) != (gameType, difficulty) {
        assert r[t][d] == Lookup(r, t, d) == Lookup(table, t, d);
      }
    }
  }
}
