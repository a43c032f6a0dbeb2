/** The live mood feed: the first ten submissions, each shown as an emoji. */
module LiveMoodFeed {

  import opened Moods
  import opened Schema
  import JsObjects

  const FeedLength: nat := 10
  const FallbackEmoji: string := "\U{1F610}"

  /** The `moodEmojis` table. */
  const EmojiTable: map<string, string> := map[
    SuperHappy := "\U{1F929}",
    Happy := "\U{1F60A}",
    Neutral := "\U{1F610}",
    Anxious := "\U{1F630}",
    Sad := "\U{1F622}"
  ]

  /**
   * The emoji of a mood, looking only at the table's own keys: each known
   * mood has its own emoji, no two alike, and every other string shows the
   * neutral face.
   */
  function MoodEmoji(m: string): (r: string)
    ensures IsKnownMood(m) ==> r == EmojiTable[m]
    ensures !IsKnownMood(m) ==> r == FallbackEmoji
    ensures r == FallbackEmoji <==> m == Neutral || !IsKnownMood(m)
  {
    if m in EmojiTable then EmojiTable[m] else FallbackEmoji
  }

  lemma EmojisDistinct(a: string, b: string)
    requires IsKnownMood(a) && IsKnownMood(b) && a != b
    ensures MoodEmoji(a) != MoodEmoji(b)
  {
  }

  /** What an item shows as the source computes it: `moodEmojis[mood] || '😐'`. */
  datatype Shown = Emoji(text: string) | PrototypeMember(name: string)

  function EmojiAsWritten(m: string): (r: Shown)
    ensures r.PrototypeMember? <==> m in JsObjects.PrototypeMembers
    ensures r.PrototypeMember? ==> r.name == m
    ensures r.Emoji? ==> r.text != ""
  {
    match JsObjects.Lookup(EmojiTable, m)
    case Own(e) => if e != "" then Emoji(e) else Emoji(FallbackEmoji)
    case Inherited(name) => PrototypeMember(name)
    case Undefined => Emoji(FallbackEmoji)
  }

  /**
   * As written, a mood "constructor" shows a function instead of the fallback
   * emoji, and "__proto__" reaches Object.prototype itself.
   */
  lemma PrototypeMoodSkipsFallback()
    ensures EmojiAsWritten("constructor") == PrototypeMember("constructor")
    ensures EmojiAsWritten("constructor") != Emoji(FallbackEmoji)
    ensures EmojiAsWritten("__proto__") == PrototypeMember("__proto__")
  {
    assert "constructor" !in EmojiTable;
    assert "constructor" in JsObjects.PrototypeMembers;
  }

  lemma EmojiAsWrittenAgrees(m: string)
    requires m !in JsObjects.PrototypeMembers
    ensures EmojiAsWritten(m) == Emoji(MoodEmoji(m))
  {
  }

  /** One feed row; its relative-time text is derived from `timestamp`. */
  datatype FeedItem = FeedItem(key: string, emoji: string, timestamp: int)

  datatype FeedView = NoSubmissionsYet | Items(items: seq<FeedItem>)

  /**
   * The feed shows the first `min(10, n)` submissions in their given order,
   * each with its mood's emoji; no submissions selects the empty state.
   */
  function Feed(submissions: seq<MoodSubmission>): (view: FeedView)
    ensures view.NoSubmissionsYet? <==> submissions == []
    ensures view.Items? ==>
      && |view.items| == (if |submissions| < FeedLength then |submissions| else FeedLength)
      && forall i :: 0 <= i < |view.items| ==>
           view.items[i] == FeedItem(submissions[i].id, MoodEmoji(submissions[i].mood), submissions[i].timestamp)
  {
    var recent := if |submissions| < FeedLength then submissions else submissions[..FeedLength];
    if |recent| == 0 then NoSubmissionsYet
    else Items(seq(|recent|, i requires 0 <= i < |recent| =>
      FeedItem(recent[i].id, MoodEmoji(recent[i].mood), recent[i].timestamp)))
  }
}
