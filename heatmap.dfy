/**
 * The mood heatmap: an 8x8 grid whose cells hold the intensity of the first
 * 64 submissions, neutral where there is none.
 */
module MoodHeatmap {

  import opened Moods
  import opened Schema
  import JsObjects

  const GridSize: nat := 64
  /** The intensity a cell starts with, and the fallback for an unlisted mood. */
  const DefaultIntensity: int := 2

  /** The `moodIntensity` table. */
  const IntensityTable: map<string, int> :=
    map[SuperHappy := 5, Happy := 4, Neutral := 2, Anxious := 3, Sad := 1]

  /** `intensityColors`, indexed by intensity 0..5. */
  const IntensityColors: seq<string> :=
    ["bg-gray-100", "bg-blue-200", "bg-gray-200", "bg-pink-200", "bg-green-200", "bg-yellow-400"]

  /**
   * The intensity of a mood, looking only at the table's own keys: the five
   * known moods map to 5, 4, 2, 3, 1 (super-happy .. sad) and every other
   * string to 2. Every result is a valid index of `IntensityColors`.
   */
  function MoodIntensity(m: string): (r: int)
    ensures 1 <= r <= 5 && r < |IntensityColors|
    ensures !IsKnownMood(m) ==> r == DefaultIntensity
    ensures m == SuperHappy ==> r == 5
    ensures m == Happy ==> r == 4
    ensures m == Anxious ==> r == 3
    ensures m == Neutral ==> r == 2
    ensures m == Sad ==> r == 1
  {
    if m in IntensityTable then IntensityTable[m] else DefaultIntensity
  }

  /** What a cell holds as the source computes it: `moodIntensity[mood] || 2`. */
  datatype CellValue = Level(n: int) | PrototypeMember(name: string)

  function CellAsWritten(m: string): (r: CellValue)
    ensures r.PrototypeMember? <==> m in JsObjects.PrototypeMembers
    ensures r.PrototypeMember? ==> r.name == m
    ensures r.Level? ==> 1 <= r.n <= 5
  {
    match JsObjects.Lookup(IntensityTable, m)
    case Own(v) => if v != 0 then Level(v) else Level(DefaultIntensity)
    case Inherited(name) => PrototypeMember(name)
    case Undefined => Level(DefaultIntensity)
  }

  /**
   * As written, a submission whose mood is "toString" (any text is a storable
   * mood) puts a function into the grid: the cell is no intensity at all and
   * indexes no entry of `IntensityColors`.
   */
  lemma PrototypeMoodEscapesColorRange()
    ensures CellAsWritten("toString") == PrototypeMember("toString")
    ensures !CellAsWritten("toString").Level?
  {
    assert "toString" !in IntensityTable;
    assert "toString" in JsObjects.PrototypeMembers;
  }

  /** For every mood outside Object.prototype's members, the written lookup and `MoodIntensity` agree. */
  lemma CellAsWrittenAgrees(m: string)
    requires m !in JsObjects.PrototypeMembers
    ensures CellAsWritten(m) == Level(MoodIntensity(m))
  {
  }

  /** The grid as a function of the submissions, cell by cell. */
  function HeatmapOf(subs: seq<MoodSubmission>): (grid: seq<int>)
    ensures |grid| == GridSize
    ensures forall i :: 0 <= i < GridSize ==> 1 <= grid[i] < |IntensityColors|
  {
    seq(GridSize, i requires 0 <= i < GridSize =>
      if i < |subs| then MoodIntensity(subs[i].mood) else DefaultIntensity)
  }

  /** Submissions after the 64th do not change the grid. */
  lemma HeatmapIgnoresTail(subs: seq<MoodSubmission>, more: seq<MoodSubmission>)
    requires |subs| >= GridSize
    ensures HeatmapOf(subs + more) == HeatmapOf(subs)
  {
    assert forall i :: 0 <= i < GridSize ==> (subs + more)[i] == subs[i];
  }

  /**
   * generateHeatmapData: 64 cells filled with 2, then cell `i` overwritten by
   * the intensity of submission `i` for the first 64 submissions.
   */
  method GenerateHeatmapData(submissions: seq<MoodSubmission>) returns (cells: seq<int>)
    ensures |cells| == GridSize
    ensures forall i :: 0 <= i < GridSize && i < |submissions| ==> cells[i] == MoodIntensity(submissions[i].mood)
    ensures forall i :: |submissions| <= i < GridSize ==> cells[i] == DefaultIntensity
    ensures cells == HeatmapOf(submissions)
  {
    var grid := new int[GridSize];
    for i := 0 to GridSize
      invariant forall j :: 0 <= j < i ==> grid[j] == DefaultIntensity
    {
      grid[i] := DefaultIntensity;
    }
    var recent := if |submissions| < GridSize then submissions else submissions[..GridSize];
    for index := 0 to |recent|
      invariant forall j :: 0 <= j < index ==> grid[j] == MoodIntensity(recent[j].mood)
      invariant forall j :: index <= j < GridSize ==> grid[j] == DefaultIntensity
    {
      if index < GridSize {
        grid[index] := MoodIntensity(recent[index].mood);
      }
    }
    cells := grid[..];
  }
}
