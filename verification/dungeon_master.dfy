/** The dungeon master (src/agents/dungeon_master/dm.py): the plot-progression
    state machine over an ordered list of plot points and a current index,
    the plot-extension parser, status reporting, context assembly, and the
    response orchestration that ties them to the episodic world.

    Every call into the language model or the stores is a parameter: the
    generator's text (or its failure), the two query replies, the location
    row, and whether each memory write succeeds. */
module DungeonMasterAgent {
  import opened Common
  import opened Text
  import EW = EpisodicWorld

  const InitialPlot: seq<string> := [
    "Player awakens in a mysterious, cursed location",
    "Discover the nature of the horror realm",
    "Encounter first supernatural entity or phenomenon",
    "Find a way to navigate the dangerous environment",
    "Uncover clues about the curse or dark forces at work"
  ]

  const MaxNewPoints: nat := 3
  const HistoryWindow: nat := 10
  const NoContext := "No specific context available"

  /** The fixed instructions that follow the context in the opening-scene prompt. */
  const OpeningInstructions :=
    "\n\nCreate a brief, atmospheric opening scene for a horror RPG set in Dracula's castle. "
    + "Keep it concise (2-3 sentences maximum).\n\nFocus on the immediate surroundings and the player's disorientation. "
    + "End with: Say 'start' to begin your nightmare."

  // ---------------------------------------------------------------- list edits

  /** Python `list.insert(i, x)` for a non-negative index. */
  function Insert<T>(s: seq<T>, i: nat, x: T): (r: seq<T>)
    ensures |r| == |s| + 1
    ensures i <= |s| ==> r == s[..i] + [x] + s[i..]
    ensures i > |s| ==> r == s + [x]
  {
    if i >= |s| then s + [x] else s[..i] + [x] + s[i..]
  }

  /** Python `list.pop(i)` for an index inside the list. */
  function Pop<T>(s: seq<T>, i: nat): (r: seq<T>)
    requires i < |s|
    ensures |r| == |s| - 1
    ensures forall k :: 0 <= k < |r| ==> r[k] == (if k < i then s[k] else s[k + 1])
  {
    s[..i] + s[i + 1..]
  }

  // ---------------------------------------------------------------- parsing

  /** A line the plot parser can return: stripped and non-empty, one line. */
  predicate IsPlotLine(p: string) {
    p != "" && '\n' !in p && !IsSpace(p[0]) && !IsSpace(p[|p| - 1])
  }

  /** The stripped non-empty pieces, in their original order. */
  function PlotLines(pieces: seq<string>): (r: seq<string>)
    ensures |r| <= |pieces|
  {
    if pieces == [] then []
    else
      var p := Strip(pieces[0]);
      (if p != "" then [p] else []) + PlotLines(pieces[1..])
  }

  /** One piece contributes its stripped text, unless that is empty. */
  lemma PlotLinesOfOne(p: string)
    ensures PlotLines([p]) == if Strip(p) != "" then [Strip(p)] else []
  {
    assert [p][1..] == [];
  }

  /** Pieces are parsed independently and in order. */
  lemma {:induction false} PlotLinesAppend(a: seq<string>, b: seq<string>)
    ensures PlotLines(a + b) == PlotLines(a) + PlotLines(b)
    decreases |a|
  {
    if a == [] {
      assert a + b == b;
    } else {
      var ab := a + b;
      assert ab[0] == a[0] && ab[1..] == a[1..] + b;
      var p := Strip(a[0]);
      var head := if p != "" then [p] else [];
      assert PlotLines(ab) == head + PlotLines(a[1..] + b);
      assert PlotLines(a) == head + PlotLines(a[1..]);
      PlotLinesAppend(a[1..], b);
      AppendAssociates(head, PlotLines(a[1..]), PlotLines(b));
    }
  }

  lemma AppendAssociates<T>(x: seq<T>, y: seq<T>, z: seq<T>)
    ensures x + (y + z) == (x + y) + z
  {
  }

  /** A response written line by line parses to the stripped non-blank lines,
      in order, cut to the first three. */
  lemma ParsePlotExtensionOfPieces(pieces: seq<string>)
    requires pieces != []
    requires forall k :: 0 <= k < |pieces| ==> '\n' !in pieces[k]
    ensures var all := PlotLines(pieces);
      ParsePlotExtension(Join("\n", pieces)) == all[..Min(MaxNewPoints, |all|)]
  {
    SplitOnJoin(pieces, '\n');
    assert "\n" == ['\n'];
  }

  /** A stripped single line that is not empty is a plot line. */
  lemma StripPlotLine(s: string)
    requires '\n' !in s && Strip(s) != ""
    ensures IsPlotLine(Strip(s))
  {
  }

  /** Every kept piece is a plot line. */
  lemma {:induction false} PlotLinesAreLines(pieces: seq<string>)
    requires forall k :: 0 <= k < |pieces| ==> '\n' !in pieces[k]
    ensures forall k :: 0 <= k < |PlotLines(pieces)| ==> IsPlotLine(PlotLines(pieces)[k])
  {
    if pieces != [] {
      assert forall k :: 0 <= k < |pieces[1..]| ==> '\n' !in pieces[1..][k];
      PlotLinesAreLines(pieces[1..]);
      var p := Strip(pieces[0]);
      var rest := PlotLines(pieces[1..]);
      if p != "" {
        StripPlotLine(pieces[0]);
        assert PlotLines(pieces) == [p] + rest;
        forall k | 0 <= k < |[p] + rest| ensures IsPlotLine(([p] + rest)[k]) {
          if k > 0 {
            assert ([p] + rest)[k] == rest[k - 1];
          }
        }
      } else {
        assert PlotLines(pieces) == rest;
      }
    }
  }

  /** The plot-extension parser: split the response on '\n', strip each
      piece, drop the empty ones and keep at most the first three. */
  function ParsePlotExtension(response: string): (points: seq<string>)
    ensures |points| <= MaxNewPoints
    ensures forall k :: 0 <= k < |points| ==> IsPlotLine(points[k])
    ensures AllSpace(response) ==> points == []
    ensures var all := PlotLines(SplitOn(response, '\n')); points == all[..Min(MaxNewPoints, |all|)]
  {
    var pieces := SplitOn(response, '\n');
    AllSpacePieces(response);
    var all := PlotLines(pieces);
    PlotLinesAreLines(pieces);
    if |all| <= MaxNewPoints then all else all[..MaxNewPoints]
  }

  lemma {:induction false} AllSpacePieces(response: string)
    ensures AllSpace(response) ==> PlotLines(SplitOn(response, '\n')) == []
  {
    if AllSpace(response) {
      var pieces := SplitOn(response, '\n');
      forall k | 0 <= k < |pieces| ensures AllSpace(pieces[k]) {
        JoinSplitOn(response, '\n');
        PieceOfJoinIsInfix(pieces, '\n', k);
        forall i | 0 <= i < |pieces[k]| ensures IsSpace(pieces[k][i]) {
          var x := pieces[k][i];
          assert x in response;
          var j :| 0 <= j < |response| && response[j] == x;
        }
      }
      AllSpacePlotLines(pieces);
    }
  }

  lemma {:induction false} PieceOfJoinIsInfix(pieces: seq<string>, c: char, k: nat)
    requires k < |pieces|
    ensures forall x :: x in pieces[k] ==> x in Join([c], pieces)
  {
    if k > 0 {
      PieceOfJoinIsInfix(pieces[1..], c, k - 1);
    }
  }

  lemma {:induction false} AllSpacePlotLines(pieces: seq<string>)
    requires forall k :: 0 <= k < |pieces| ==> '\n' !in pieces[k] && AllSpace(pieces[k])
    ensures PlotLines(pieces) == []
  {
    if pieces != [] {
      AllSpacePlotLines(pieces[1..]);
    }
  }

  lemma {:induction false} PlotLinesOfPlotLines(lines: seq<string>)
    requires forall k :: 0 <= k < |lines| ==> IsPlotLine(lines[k])
    ensures (forall k :: 0 <= k < |lines| ==> '\n' !in lines[k]) && PlotLines(lines) == lines
  {
    if lines != [] {
      assert forall k :: 0 <= k < |lines[1..]| ==> IsPlotLine(lines[1..][k]);
      PlotLinesOfPlotLines(lines[1..]);
      StripOfPlotLine(lines[0]);
      assert PlotLines(lines) == [lines[0]] + lines[1..];
    }
  }

  /** Stripping a plot line leaves it as it is. */
  lemma StripOfPlotLine(p: string)
    requires IsPlotLine(p)
    ensures Strip(p) == p
  {
    StripIdentity(p);
  }

  /** A response holding one plot point per line parses back to those points,
      in order, cut to the first three. */
  lemma ParsePlotExtensionOfLines(lines: seq<string>)
    requires lines != []
    requires forall k :: 0 <= k < |lines| ==> IsPlotLine(lines[k])
    ensures ParsePlotExtension(Join("\n", lines)) == if |lines| <= 3 then lines else lines[..3]
  {
    SplitOnJoin(lines, '\n');
    assert "\n" == ['\n'];
    PlotLinesOfPlotLines(lines);
  }

  // ---------------------------------------------------------------- state machine

  /** One plot advance on the list and the index: the point at the index is
      removed, the new points take its place in their order, and the index
      moves by one exactly when there were new points. Indexing past the list
      raises IndexError, so the "complete" state (index == length) is not
      absorbing. */
  function AdvancePlot(points: seq<string>, index: nat, newPoints: seq<string>): (r: Result<(seq<string>, nat)>)
    ensures r.Err? <==> index >= |points|
    ensures r.Err? ==> r.error == IndexError
    ensures r.Ok? ==> |r.value.0| == |points| - 1 + |newPoints|
    ensures r.Ok? ==> r.value.1 == (if newPoints == [] then index else index + 1)
    ensures r.Ok? ==> r.value.1 <= |r.value.0|
  {
    if index >= |points| then Err(IndexError)
    else Ok((points[..index] + newPoints + points[index + 1..], if newPoints == [] then index else index + 1))
  }

  /** After an advance the points before the slot are untouched, the new points
      sit at the slot in order, and the points after the removed one follow. */
  lemma AdvanceSplicesNewPoints(points: seq<string>, index: nat, newPoints: seq<string>)
    requires index < |points|
    ensures var r := AdvancePlot(points, index, newPoints).value.0;
      && r[..index] == points[..index]
      && r[index..index + |newPoints|] == newPoints
      && r[index + |newPoints|..] == points[index + 1..]
  {
    var r := AdvancePlot(points, index, newPoints).value.0;
    assert r == points[..index] + newPoints + points[index + 1..];
  }

  /** The point that becomes current after an advance: with two or more new
      points it is the second new one (the first is passed over), with one it
      is the old successor of the removed point. */
  lemma CurrentPointAfterAdvance(points: seq<string>, index: nat, newPoints: seq<string>)
    requires index < |points| && newPoints != []
    ensures var (ps, i) := AdvancePlot(points, index, newPoints).value;
      && i == index + 1
      && ps[index] == newPoints[0]
      && (|newPoints| >= 2 ==> ps[i] == newPoints[1])
      && (|newPoints| == 1 && index + 1 < |points| ==> ps[i] == points[index + 1])
      && (|newPoints| == 1 && index + 1 == |points| ==> i == |ps|)
  {
    AdvanceSplicesNewPoints(points, index, newPoints);
  }

  /** A one-point plot advanced with no new points becomes complete, and the
      next advance raises IndexError instead of staying complete. */
  lemma CompleteIsNotAbsorbing(p: string, newPoints: seq<string>)
    ensures AdvancePlot([p], 0, []) == Ok(([], 0))
    ensures PlotStatusOf([], 0).currentPoint == "Complete"
    ensures AdvancePlot([], 0, newPoints) == Err(IndexError)
  {
  }

  // ---------------------------------------------------------------- status

  datatype PlotStatus = PlotStatus(
    currentIndex: nat,
    currentPoint: string,
    upcomingPoints: seq<string>,
    totalPoints: nat,
    completedPoints: nat,
    plotProgress: string)

  /** `get_current_plot_status`: the current point (or "Complete"), the up to
      three points after it, and the counts. */
  function PlotStatusOf(points: seq<string>, index: nat): (s: PlotStatus)
    ensures s.currentPoint == (if index < |points| then points[index] else "Complete")
    ensures |s.upcomingPoints| <= 3
    ensures |s.upcomingPoints| == if index + 1 < |points| then (if |points| - index - 1 < 3 then |points| - index - 1 else 3) else 0
    ensures forall k :: 0 <= k < |s.upcomingPoints| ==> s.upcomingPoints[k] == points[index + 1 + k]
    ensures s.currentIndex == index && s.completedPoints == index && s.totalPoints == |points|
    ensures s.plotProgress == Decimal(index) + "/" + Decimal(|points|)
  {
    PlotStatus(
      index,
      if index < |points| then points[index] else "Complete",
      Slice(points, index + 1, index + 4),
      |points|,
      index,
      Decimal(index) + "/" + Decimal(|points|))
  }

  /** `get_plot_summary`: three lines, progress, current point and the
      upcoming points joined with ", ". */
  function PlotSummary(s: PlotStatus): (r: string)
    ensures var first := "Plot Progress: " + s.plotProgress + " points completed\n";
      |r| > |first| && r[..|first|] == first
  {
    ("Plot Progress: " + s.plotProgress + " points completed") + "\n"
      + ("Current: " + s.currentPoint) + "\n"
      + ("Upcoming: " + Join(", ", s.upcomingPoints))
  }

  lemma ThreeLines(a: string, b: string, c: string)
    requires '\n' !in a && '\n' !in b && '\n' !in c
    ensures SplitOn(a + "\n" + b + "\n" + c, '\n') == [a, b, c]
  {
    assert [a, b, c][1..] == [b, c] && [b, c][1..] == [c];
    assert Join("\n", [c]) == c;
    assert Join("\n", [b, c]) == b + ("\n" + c);
    assert Join("\n", [a, b, c]) == a + ("\n" + (b + ("\n" + c)));
    assert a + ("\n" + (b + ("\n" + c))) == a + "\n" + b + "\n" + c;
    assert "\n" == ['\n'];
    SplitOnJoin([a, b, c], '\n');
  }

  /** The progress line is a single line. */
  lemma ProgressLineSingle(done: nat, total: nat)
    ensures '\n' !in "Plot Progress: " + (Decimal(done) + "/" + Decimal(total)) + " points completed"
  {
    DigitsAvoid(Decimal(done), '\n');
    DigitsAvoid(Decimal(total), '\n');
  }

  /** When no plot point spans lines, the summary splits into exactly its
      three labelled lines. */
  lemma PlotSummaryLines(points: seq<string>, index: nat)
    requires forall k :: 0 <= k < |points| ==> '\n' !in points[k]
    ensures var s := PlotStatusOf(points, index);
      SplitOn(PlotSummary(s), '\n') == [
        "Plot Progress: " + s.plotProgress + " points completed",
        "Current: " + s.currentPoint,
        "Upcoming: " + Join(", ", s.upcomingPoints)]
  {
    var s := PlotStatusOf(points, index);
    var a := "Plot Progress: " + s.plotProgress + " points completed";
    var b := "Current: " + s.currentPoint;
    var c := "Upcoming: " + Join(", ", s.upcomingPoints);
    ProgressLineSingle(index, |points|);
    assert '\n' !in b by {
      if index < |points| {
        assert s.currentPoint == points[index];
      }
    }
    assert '\n' !in c by {
      JoinAvoids(", ", s.upcomingPoints, '\n');
    }
    ThreeLines(a, b, c);
  }

  /** `get_completed_plot_points`: the row's `completed_plots` entry, or None
      where the source falls back to an empty list (no row, or a world state
      without the key). The entry is the progress sentence, not a list. */
  function CompletedPlotPoints(row: Option<EW.GameState>): (r: Option<string>)
    ensures r.Some? <==> row.Some? && row.value.worldState.PlotSnapshot? && row.value.worldState.completedPlots.Some?
    ensures r.Some? ==> r.value == row.value.worldState.completedPlots.value
  {
    if row.Some? && row.value.worldState.PlotSnapshot? then row.value.worldState.completedPlots else None
  }

  /** The plot point named in the narrator prompt. */
  function CurrentPointLabel(points: seq<string>, index: nat): (shown: string)
    ensures index < |points| ==> shown == points[index]
    ensures index >= |points| ==> shown == "Plot complete"
  {
    if index < |points| then points[index] else "Plot complete"
  }

  // ---------------------------------------------------------------- context

  /** The location row's name and description, as the catalog returns them. */
  datatype LocationRow = LocationRow(name: string, description: string)

  function LocationLine(location: Option<LocationRow>): (line: string)
    ensures location.None? <==> line == ""
    ensures location.Some? ==> var head := "Current location: " + location.value.name + " - ";
      |line| == |head| + |location.value.description| && line[..|head|] == head
      && line[|head|..] == location.value.description
  {
    match location
    case None => ""
    case Some(l) => "Current location: " + l.name + " - " + l.description
  }

  /** The context parts in their fixed order: documents, episodic context
      (unless empty or the no-memory sentinel), location, plot progress. */
  function ContextParts(docs: seq<string>, episodic: string, location: string, plotProgress: string): (parts: seq<string>)
    ensures |parts| == |docs|
      + (if episodic != "" && episodic != EW.NoEpisodicMemory then 1 else 0)
      + (if location != "" then 1 else 0)
      + (if plotProgress != "" then 1 else 0)
    ensures parts[..|docs|] == docs
    ensures episodic != "" && episodic != EW.NoEpisodicMemory ==> parts[|docs|] == "Episodic context: " + episodic
    ensures location != "" ==>
      parts[|docs| + (if episodic != "" && episodic != EW.NoEpisodicMemory then 1 else 0)] == location
    ensures plotProgress != "" ==> parts[|parts| - 1] == "Plot progress: " + plotProgress
  {
    docs
      + (if episodic != "" && episodic != EW.NoEpisodicMemory then ["Episodic context: " + episodic] else [])
      + (if location != "" then [location] else [])
      + (if plotProgress != "" then ["Plot progress: " + plotProgress] else [])
  }

  /** The combined context: the parts joined with " | ", or the fixed
      fallback when there are none. */
  function AssembleContext(docs: seq<string>, episodic: string, location: string, plotProgress: string): (r: string)
    ensures var parts := ContextParts(docs, episodic, location, plotProgress);
      parts == [] ==> r == NoContext
    ensures var parts := ContextParts(docs, episodic, location, plotProgress);
      |parts| == 1 ==> r == parts[0]
    ensures var parts := ContextParts(docs, episodic, location, plotProgress);
      parts != [] ==> |r| >= |parts[0]| && r[..|parts[0]|] == parts[0]
  {
    var parts := ContextParts(docs, episodic, location, plotProgress);
    if parts == [] then NoContext else Join(" | ", parts)
  }

  /** The fallback appears exactly when nothing contributes a part. */
  lemma AssembleContextFallback(docs: seq<string>, episodic: string, location: string, plotProgress: string)
    requires docs == [] && (episodic == "" || episodic == EW.NoEpisodicMemory) && location == "" && plotProgress == ""
    ensures AssembleContext(docs, episodic, location, plotProgress) == NoContext
  {
  }

  lemma JoinEndsWithLast(sep: string, parts: seq<string>)
    requires |parts| >= 2
    ensures var j := Join(sep, parts);
      var last := sep + parts[|parts| - 1];
      |j| >= |last| && j[|j| - |last|..] == last
  {
    var front := parts[..|parts| - 1];
    assert parts == front + [parts[|parts| - 1]];
    JoinAppend(sep, front, parts[|parts| - 1]);
    var f := Join(sep, front);
    assert Join(sep, parts) == f + (sep + parts[|parts| - 1]);
  }

  /** The context opens with the first document when there is one. */
  lemma AssembleContextOpens(docs: seq<string>, episodic: string, location: string, plotProgress: string)
    requires docs != []
    ensures var r := AssembleContext(docs, episodic, location, plotProgress);
      |r| >= |docs[0]| && r[..|docs[0]|] == docs[0]
  {
    var parts := ContextParts(docs, episodic, location, plotProgress);
    assert parts[..|docs|][0] == docs[0];
  }

  /** The context ends with the plot progress part when there is one besides
      a document. */
  lemma AssembleContextOrder(docs: seq<string>, episodic: string, location: string, plotProgress: string)
    requires docs != [] && plotProgress != ""
    ensures var r := AssembleContext(docs, episodic, location, plotProgress);
      var last := " | Plot progress: " + plotProgress;
      |r| >= |last| && r[|r| - |last|..] == last
  {
    var parts := ContextParts(docs, episodic, location, plotProgress);
    assert |parts| >= 2 && parts[|parts| - 1] == "Plot progress: " + plotProgress;
    assert AssembleContext(docs, episodic, location, plotProgress) == Join(" | ", parts);
    JoinEndsWithLast(" | ", parts);
    assert " | " + "Plot progress: " == " | Plot progress: ";
    assert " | " + ("Plot progress: " + plotProgress) == (" | " + "Plot progress: ") + plotProgress;
  }

  /** `_get_relevant_context`: a failed store query propagates (there is no
      fallback); otherwise the documents of the world query, the episodic
      context, the current location (looked up only when the session names a
      non-zero location id) and the row's plot progress are assembled. */
  function RelevantContext(
    worldReply: Result<QueryReply>,
    episodicReply: Result<QueryReply>,
    row: Option<EW.GameState>,
    location: Option<LocationRow>): (r: Result<string>)
    ensures worldReply.Err? ==> r == Err(worldReply.error)
    ensures worldReply.Ok? && episodicReply.Err? ==> r == Err(episodicReply.error)
    ensures worldReply.Ok? && episodicReply.Ok? ==>
      r == Ok(AssembleContext(EW.WorldContext(worldReply.value).0, EW.EpisodicContext(episodicReply.value),
                              SessionLocation(row, location), PlotProgressOf(row)))
  {
    if worldReply.Err? then Err(worldReply.error)
    else if episodicReply.Err? then Err(episodicReply.error)
    else
      var docs := EW.WorldContext(worldReply.value).0;
      var episodic := EW.EpisodicContext(episodicReply.value);
      Ok(AssembleContext(docs, episodic, SessionLocation(row, location), PlotProgressOf(row)))
  }

  /** The location part: looked up only when the session names a non-zero
      location id, and empty when the lookup finds no row. */
  function SessionLocation(row: Option<EW.GameState>, location: Option<LocationRow>): (line: string)
    ensures line != "" <==>
      row.Some? && row.value.sessionData.currentLocationId.Some? &&
      row.value.sessionData.currentLocationId.value != 0 && location.Some?
  {
    var locationId := if row.Some? then row.value.sessionData.currentLocationId else None;
    if locationId.Some? && locationId.value != 0 then LocationLine(location) else ""
  }

  /** The row's plot progress, empty when there is no row. */
  function PlotProgressOf(row: Option<EW.GameState>): string {
    if row.Some? then row.value.plotProgress else ""
  }

  /** `generate_opening_scene`: the prompt sent with the opening-scene system
      prompt, built on the context assembled for the fixed opening query. */
  function OpeningScenePrompt(
    worldReply: Result<QueryReply>,
    episodicReply: Result<QueryReply>,
    row: Option<EW.GameState>,
    location: Option<LocationRow>): (r: Result<string>)
    ensures var context := RelevantContext(worldReply, episodicReply, row, location);
      && (context.Err? ==> r == Err(context.error))
      && (context.Ok? ==> (r.Ok? && |r.value| > |context.value| + 9
            && r.value[..9 + |context.value|] == "Context: " + context.value))
  {
    var context := RelevantContext(worldReply, episodicReply, row, location);
    if context.Err? then Err(context.error)
    else Ok("Context: " + context.value + OpeningInstructions)
  }

  // ---------------------------------------------------------------- narration

  /** What the narrator generation is asked: prior turns and the prompt. */
  datatype NarratorRequest = NarratorRequest(messages: seq<Message>, prompt: string)

  /** `conversation_history[-10:]`. */
  function RecentHistory(history: seq<Message>): (r: seq<Message>)
    ensures |r| == if |history| < HistoryWindow then |history| else HistoryWindow
    ensures r == history[|history| - |r|..]
  {
    if |history| <= HistoryWindow then history else history[|history| - HistoryWindow..]
  }

  function NarratorPrompt(context: string, pointLabel: string, playerInput: string): (r: string)
    ensures var head := "Context: " + context; |r| >= |head| && r[..|head|] == head
    ensures var tail := "\n\nPlayer says: " + playerInput; |r| >= |tail| && r[|r| - |tail|..] == tail
    ensures var head := "Context: " + context; var point := "\n\nCurrent plot point: " + pointLabel;
      var tail := "\n\nPlayer says: " + playerInput;
      |r| == |head| + |point| + |tail| && r[|head|..|head| + |point|] == point
  {
    "Context: " + context + "\n\nCurrent plot point: " + pointLabel + "\n\nPlayer says: " + playerInput
  }

  /** The three messages recorded when a plot point is completed. */
  function CompletionRecord(completed: string, action: string): (ms: seq<Message>)
    ensures |ms| == 3 && ms[0].role == Some("system") && ms[1] == Msg("user", action) && ms[2].role == Some("assistant")
    ensures ms[2].content.Some? && |ms[2].content.value| >= |action|
      && ms[2].content.value[|ms[2].content.value| - |action|..] == action
    ensures ms[0] == Msg("system", "Completed plot point: " + completed)
    ensures var c := ms[2].content.value; var head := "Plot point '" + completed + "' completed through action: ";
      |c| == |head| + |action| && c[..|head|] == head
  {
    [ Msg("system", "Completed plot point: " + completed),
      Msg("user", action),
      Msg("assistant", "Plot point '" + completed + "' completed through action: " + action) ]
  }

  function Exchange(playerInput: string, response: string): seq<Message> {
    [Msg("user", playerInput), Msg("assistant", response)]
  }

  /** The history alternates player and narrator turns, starting with the player. */
  ghost predicate ExchangeLog(history: seq<Message>) {
    && |history| % 2 == 0
    && forall k :: 0 <= k < |history| ==>
         history[k].role == Some(if k % 2 == 0 then "user" else "assistant") && history[k].content.Some?
  }

  function CompletedSummary(index: nat): string {
    "Completed " + Decimal(index) + " plot points"
  }

  /** The row written after an advance. */
  function PlotRow(points: seq<string>, index: nat, action: string): (row: EW.WorldStateData)
    ensures row.PlotSnapshot? && row.plotPoints == points && row.currentIndex == index
    ensures row.lastAction == Some(action) && row.completedPlots == Some(CompletedSummary(index))
  {
    EW.PlotSnapshot(points, index, Some(action), Some(CompletedSummary(index)))
  }

  class DungeonMaster {
    const world: EW.World
    var plotPoints: seq<string>
    var currentPlotIndex: nat
    var conversationHistory: seq<Message>

    ghost predicate Valid()
      reads this
    {
      currentPlotIndex <= |plotPoints| && ExchangeLog(conversationHistory)
    }

    /** `__init__` after the prompts are loaded: empty plot and history, then
        the initial scenario. */
    constructor(world: EW.World)
      modifies world
      ensures Valid() && this.world == world
      ensures plotPoints == InitialPlot && currentPlotIndex == 0 && conversationHistory == []
      ensures world.gameState == EW.UpdatedState(old(world.gameState), "initial_setup", EW.PlotSnapshot(InitialPlot, 0, None, None))
      ensures world.interactionCount == old(world.interactionCount) && world.memories == old(world.memories)
      ensures world.gateLog == old(world.gateLog)
    {
      this.world := world;
      plotPoints := [];
      currentPlotIndex := 0;
      conversationHistory := [];
      new;
      SetupInitialScenario();
    }

    /** `_setup_initial_scenario`: the five fixed plot points at index 0,
        recorded in the game-state row. */
    method SetupInitialScenario()
      modifies this, world
      ensures plotPoints == InitialPlot && currentPlotIndex == 0
      ensures conversationHistory == old(conversationHistory)
      ensures world.gameState == EW.UpdatedState(old(world.gameState), "initial_setup", EW.PlotSnapshot(InitialPlot, 0, None, None))
      ensures world.interactionCount == old(world.interactionCount) && world.memories == old(world.memories)
      ensures world.gateLog == old(world.gateLog)
    {
      plotPoints := InitialPlot;
      currentPlotIndex := 0;
      world.UpdateWorldState("initial_setup", EW.PlotSnapshot(InitialPlot, 0, None, None));
    }

    function GetCurrentPlotStatus(): (s: PlotStatus)
      reads this
      ensures s == PlotStatusOf(plotPoints, currentPlotIndex)
    {
      PlotStatusOf(plotPoints, currentPlotIndex)
    }

    /** The list edit of an advance: pop the current point, insert the new
        points one by one at its slot, and move the index on when something
        was inserted. */
    method ReplaceCurrentPoint(newPoints: seq<string>)
      requires currentPlotIndex < |plotPoints|
      modifies this
      ensures AdvancePlot(old(plotPoints), old(currentPlotIndex), newPoints) == Ok((plotPoints, currentPlotIndex))
      ensures conversationHistory == old(conversationHistory)
    {
      var index := currentPlotIndex;
      ghost var before := plotPoints;
      plotPoints := Pop(plotPoints, index);
      assert plotPoints == before[..index] + before[index + 1..];
      var k := 0;
      while k < |newPoints|
        invariant 0 <= k <= |newPoints|
        invariant plotPoints == before[..index] + newPoints[..k] + before[index + 1..]
        invariant currentPlotIndex == index && conversationHistory == old(conversationHistory)
        modifies this
      {
        plotPoints := Insert(plotPoints, index + k, newPoints[k]);
        assert newPoints[..k + 1] == newPoints[..k] + [newPoints[k]];
        k := k + 1;
      }
      assert newPoints[..k] == newPoints;
      if newPoints != [] {
        currentPlotIndex := currentPlotIndex + 1;
      }
    }

    /** `_update_plot_progression`. Reading the current point comes first and
        raises when the plot is complete. Otherwise the completion record goes
        to the memory gate, the generator's reply (or its failure, which also
        stands for a failed episodic query) is parsed, the current point is
        popped, the new points are inserted one by one at its slot, the index
        moves on when something was inserted, and the row is updated. */
    method UpdatePlotProgression(playerAction: string, completionWriteOk: bool, extension: Result<string>)
      returns (outcome: Outcome)
      requires Valid()
      modifies this, world
      ensures Valid() && conversationHistory == old(conversationHistory)
      ensures old(currentPlotIndex) >= |old(plotPoints)| ==>
        && outcome == Raised(IndexError)
        && plotPoints == old(plotPoints) && currentPlotIndex == old(currentPlotIndex)
        && world.gateLog == old(world.gateLog) && world.gameState == old(world.gameState)
        && world.interactionCount == old(world.interactionCount) && world.memories == old(world.memories)
      ensures old(currentPlotIndex) < |old(plotPoints)| ==>
        var record := CompletionRecord(old(plotPoints)[old(currentPlotIndex)], playerAction);
        var gate := EW.Gate(old(world.interactionCount), record, completionWriteOk);
        && world.gateLog == old(world.gateLog) + [record]
        && world.interactionCount == gate.count && world.memories == old(world.memories) + gate.written
        && (gate.outcome.Raised? || extension.Err? ==>
              && outcome == (if gate.outcome.Raised? then gate.outcome else Raised(extension.error))
              && plotPoints == old(plotPoints) && currentPlotIndex == old(currentPlotIndex)
              && world.gameState == old(world.gameState))
        && (gate.outcome == Done && extension.Ok? ==>
              var advanced := AdvancePlot(old(plotPoints), old(currentPlotIndex), ParsePlotExtension(extension.value));
              && outcome == Done
              && advanced == Ok((plotPoints, currentPlotIndex))
              && world.gameState == EW.UpdatedState(old(world.gameState), "plot_point_" + Decimal(currentPlotIndex),
                                                    PlotRow(plotPoints, currentPlotIndex, playerAction)))
    {
      if currentPlotIndex >= |plotPoints| {
        return Raised(IndexError);
      }
      var index := currentPlotIndex;
      var record := CompletionRecord(plotPoints[index], playerAction);
      outcome := world.AddEpisodicMemoryFromMessages(record, completionWriteOk);
      if outcome.Raised? {
        return;
      }
      if extension.Err? {
        return Raised(extension.error);
      }
      var newPoints := ParsePlotExtension(extension.value);
      ReplaceCurrentPoint(newPoints);
      world.UpdateWorldState("plot_point_" + Decimal(currentPlotIndex), PlotRow(plotPoints, currentPlotIndex, playerAction));
    }

    /** What follows a successful narration: the history grows by the
        exchange, the exchange goes to the memory gate, and the plot advances
        (handing the completion record to the gate a second time). */
    method RecordExchange(playerInput: string, response: string, exchangeWriteOk: bool,
                          completionWriteOk: bool, extension: Result<string>)
      returns (outcome: Outcome)
      requires Valid()
      modifies this, world
      ensures Valid()
      ensures conversationHistory == old(conversationHistory) + Exchange(playerInput, response)
      ensures |world.gateLog| >= |old(world.gateLog)| + 1
      ensures world.gateLog[..|old(world.gateLog)| + 1] == old(world.gateLog) + [Exchange(playerInput, response)]
      ensures outcome == Done ==>
        && extension.Ok?
        && old(currentPlotIndex) < |old(plotPoints)|
        && world.gateLog == old(world.gateLog)
             + [Exchange(playerInput, response),
                CompletionRecord(old(plotPoints)[old(currentPlotIndex)], playerInput)]
        && AdvancePlot(old(plotPoints), old(currentPlotIndex), ParsePlotExtension(extension.value))
             == Ok((plotPoints, currentPlotIndex))
      // The exchange's gate raises, or the plot index is already past the end:
      // nothing beyond the first gate call happens.
      ensures var g1 := EW.Gate(old(world.interactionCount), Exchange(playerInput, response), exchangeWriteOk);
        g1.outcome.Raised? || old(currentPlotIndex) >= |old(plotPoints)| ==>
          && outcome == (if g1.outcome.Raised? then g1.outcome else Raised(IndexError))
          && world.interactionCount == g1.count && world.memories == old(world.memories) + g1.written
          && world.gateLog == old(world.gateLog) + [Exchange(playerInput, response)]
          && plotPoints == old(plotPoints) && currentPlotIndex == old(currentPlotIndex)
          && world.gameState == old(world.gameState)
      // Otherwise the completion record goes through the gate after the exchange.
      ensures var g1 := EW.Gate(old(world.interactionCount), Exchange(playerInput, response), exchangeWriteOk);
        g1.outcome == Done && old(currentPlotIndex) < |old(plotPoints)| ==>
          var record := CompletionRecord(old(plotPoints)[old(currentPlotIndex)], playerInput);
          var g2 := EW.Gate(g1.count, record, completionWriteOk);
          && world.gateLog == old(world.gateLog) + [Exchange(playerInput, response), record]
          && world.interactionCount == g2.count
          && world.memories == old(world.memories) + g1.written + g2.written
          && (g2.outcome.Raised? || extension.Err? ==>
                && outcome == (if g2.outcome.Raised? then g2.outcome else Raised(extension.error))
                && plotPoints == old(plotPoints) && currentPlotIndex == old(currentPlotIndex)
                && world.gameState == old(world.gameState))
          && (g2.outcome == Done && extension.Ok? ==>
                && outcome == Done
                && AdvancePlot(old(plotPoints), old(currentPlotIndex), ParsePlotExtension(extension.value))
                     == Ok((plotPoints, currentPlotIndex))
                && world.gameState == EW.UpdatedState(old(world.gameState), "plot_point_" + Decimal(currentPlotIndex),
                                                      PlotRow(plotPoints, currentPlotIndex, playerInput)))
    {
      conversationHistory := conversationHistory + [Msg("user", playerInput)];
      conversationHistory := conversationHistory + [Msg("assistant", response)];
      outcome := world.AddEpisodicMemoryFromMessages(Exchange(playerInput, response), exchangeWriteOk);
      if outcome.Raised? {
        return;
      }
      ghost var logged := world.gateLog;
      outcome := UpdatePlotProgression(playerInput, completionWriteOk, extension);
      assert world.gateLog[..|logged|] == logged;
    }

    /** `respond_to_player`. The context is assembled first (a failed query
        propagates), then the narrator is asked with the last ten history
        entries; only once it has answered is the exchange recorded. */
    method RespondToPlayer(
      playerInput: string,
      worldReply: Result<QueryReply>,
      episodicReply: Result<QueryReply>,
      location: Option<LocationRow>,
      narration: Result<string>,
      exchangeWriteOk: bool,
      completionWriteOk: bool,
      extension: Result<string>)
      returns (request: Option<NarratorRequest>, result: Result<string>)
      requires Valid()
      modifies this, world
      ensures Valid()
      ensures var context := RelevantContext(worldReply, episodicReply, old(world.gameState), location);
        && (context.Err? ==> request == None && result == Err(context.error))
        && (context.Ok? ==> request == Some(NarratorRequest(
              RecentHistory(old(conversationHistory)),
              NarratorPrompt(context.value, CurrentPointLabel(old(plotPoints), old(currentPlotIndex)), playerInput))))
      ensures request.Some? && narration.Err? ==> result == Err(narration.error)
      ensures request == None || narration.Err? ==>
        && plotPoints == old(plotPoints) && currentPlotIndex == old(currentPlotIndex)
        && conversationHistory == old(conversationHistory)
        && world.gateLog == old(world.gateLog) && world.gameState == old(world.gameState)
        && world.interactionCount == old(world.interactionCount) && world.memories == old(world.memories)
      ensures request.Some? && narration.Ok? ==>
        && conversationHistory == old(conversationHistory) + Exchange(playerInput, narration.value)
        && |world.gateLog| >= |old(world.gateLog)| + 1
        && world.gateLog[..|old(world.gateLog)| + 1] == old(world.gateLog) + [Exchange(playerInput, narration.value)]
      ensures result.Ok? ==>
        && result.value == narration.value
        && extension.Ok?
        && old(currentPlotIndex) < |old(plotPoints)|
        && world.gateLog == old(world.gateLog)
             + [Exchange(playerInput, narration.value),
                CompletionRecord(old(plotPoints)[old(currentPlotIndex)], playerInput)]
        && AdvancePlot(old(plotPoints), old(currentPlotIndex), ParsePlotExtension(extension.value))
             == Ok((plotPoints, currentPlotIndex))
      // After a narration, the state and the result follow the recording of the exchange.
      ensures request.Some? && narration.Ok? ==>
        var g1 := EW.Gate(old(world.interactionCount), Exchange(playerInput, narration.value), exchangeWriteOk);
        g1.outcome.Raised? || old(currentPlotIndex) >= |old(plotPoints)| ==>
          && result == Err(if g1.outcome.Raised? then g1.outcome.error else IndexError)
          && world.interactionCount == g1.count && world.memories == old(world.memories) + g1.written
          && world.gateLog == old(world.gateLog) + [Exchange(playerInput, narration.value)]
          && plotPoints == old(plotPoints) && currentPlotIndex == old(currentPlotIndex)
          && world.gameState == old(world.gameState)
      ensures request.Some? && narration.Ok? ==>
        var g1 := EW.Gate(old(world.interactionCount), Exchange(playerInput, narration.value), exchangeWriteOk);
        g1.outcome == Done && old(currentPlotIndex) < |old(plotPoints)| ==>
          var record := CompletionRecord(old(plotPoints)[old(currentPlotIndex)], playerInput);
          var g2 := EW.Gate(g1.count, record, completionWriteOk);
          && world.gateLog == old(world.gateLog) + [Exchange(playerInput, narration.value), record]
          && world.interactionCount == g2.count
          && world.memories == old(world.memories) + g1.written + g2.written
          && (g2.outcome.Raised? || extension.Err? ==>
                && result == Err(if g2.outcome.Raised? then g2.outcome.error else extension.error)
                && plotPoints == old(plotPoints) && currentPlotIndex == old(currentPlotIndex)
                && world.gameState == old(world.gameState))
          && (g2.outcome == Done && extension.Ok? ==>
                && result == Ok(narration.value)
                && AdvancePlot(old(plotPoints), old(currentPlotIndex), ParsePlotExtension(extension.value))
                     == Ok((plotPoints, currentPlotIndex))
                && world.gameState == EW.UpdatedState(old(world.gameState), "plot_point_" + Decimal(currentPlotIndex),
                                                      PlotRow(plotPoints, currentPlotIndex, playerInput)))
    {
      var context := RelevantContext(worldReply, episodicReply, world.gameState, location);
      if context.Err? {
        return None, Err(context.error);
      }
      var messages := RecentHistory(conversationHistory);
      var prompt := NarratorPrompt(context.value, CurrentPointLabel(plotPoints, currentPlotIndex), playerInput);
      request := Some(NarratorRequest(messages, prompt));
      if narration.Err? {
        return request, Err(narration.error);
      }
      var recorded := RecordExchange(playerInput, narration.value, exchangeWriteOk, completionWriteOk, extension);
      result := if recorded.Raised? then Err(recorded.error) else Ok(narration.value);
    }
  }
}
