/** The quiz state machine: the module-level counters of the page, their
    reset, and the double-click handler that scores one answer per round. */
module Quiz {
  import opened HitTest
  import opened Catalog

  datatype Option<T> = None | Some(value: T)

  /** What a history line says. A calibration line carries the clicked
      position; its rounded rendering as text is not modelled. */
  datatype Message = CalibClick(at: LatLng) | Text(s: string)

  /** One history line: its message and its CSS class (`""`, `"good"`, `"bad"`). */
  datatype Line = Line(text: Message, cls: string)

  /** The coloured rectangle currently drawn over the map. */
  datatype Feedback = Feedback(bounds: Bounds, color: string)

  const UnsetWarning: string := "Bounds not set yet; use calibration mode."
  const CorrectText: string := "Your answer is correct!!"
  const WrongText: string := "Sorry wrong location."

  /** A snapshot of the page's game state: the round index, the two
      counters, the history log and the feedback rectangle, if any. */
  datatype State = State(round: nat, correct: nat, incorrect: nat,
                         history: seq<Line>, feedback: Option<Feedback>)

  /** The state on page load and after every reset. */
  const Start: State := State(0, 0, 0, [], None)

  /** One double-click: where it landed and whether calibration mode is on. */
  datatype Click = Click(at: LatLng, calibMode: bool)

  /** Each finished round has exactly one verdict, and there are never more
      rounds than questions. */
  predicate Inv(t: Tables, s: State) {
    s.correct + s.incorrect == s.round && s.round <= |t.questions|
  }

  /** Every question has been answered; under `Inv` that is exactly when the
      round equals the number of questions. */
  predicate Finished(t: Tables, s: State): (r: bool)
    ensures Inv(t, s) ==> (r <==> s.round == |t.questions|)
  {
    s.round >= |t.questions|
  }

  /** Round index and both counters agree. */
  predicate SameScore(r: State, s: State) {
    r.round == s.round && r.correct == s.correct && r.incorrect == s.incorrect
  }

  /** `s.history` is a prefix of `r.history`, and `r` has `extra` more lines. */
  predicate Appended(r: State, s: State, extra: nat) {
    |r.history| == |s.history| + extra && r.history[..|s.history|] == s.history
  }

  /** The rectangle of the building asked for in the current round. */
  function CurrentBounds(t: Tables, s: State): Bounds
    requires t.Consistent() && !Finished(t, s)
  {
    t.buildings[t.questions[s.round]].bounds
  }

  /** The double-click handler as a transition on states. */
  function Step(t: Tables, s: State, c: Click): (r: State)
    requires t.Consistent()
    // a calibration click only logs, whatever the round (even after the end)
    ensures c.calibMode ==>
              SameScore(r, s) && r.feedback == s.feedback &&
              r.history == s.history + [Line(CalibClick(c.at), "")]
    // once every question is answered, a scoring click changes nothing
    ensures !c.calibMode && Finished(t, s) ==> r == s
    // an uncalibrated rectangle gives a warning and neither scores nor advances
    ensures !c.calibMode && !Finished(t, s) && LooksUnset(CurrentBounds(t, s)) ==>
              SameScore(r, s) && r.feedback == s.feedback &&
              r.history == s.history + [Line(Text(UnsetWarning), "bad")]
    // a scored answer: one more round, exactly one counter up by one, the
    // right one iff the click hit, one line logged, the rectangle shown
    ensures !c.calibMode && !Finished(t, s) && !LooksUnset(CurrentBounds(t, s)) ==>
              var hit := PointInBounds(c.at, CurrentBounds(t, s));
              r.round == s.round + 1 &&
              r.correct + r.incorrect == s.correct + s.incorrect + 1 &&
              r.correct >= s.correct && r.incorrect >= s.incorrect &&
              (r.correct > s.correct <==> hit) &&
              Appended(r, s, 1) &&
              r.history[|s.history|].text == Text(if hit then CorrectText else WrongText) &&
              r.history[|s.history|].cls == (if hit then "good" else "bad") &&
              r.feedback.Some? && r.feedback.value.bounds == CurrentBounds(t, s) &&
              r.feedback.value.color == (if hit then "green" else "red")
    ensures Inv(t, s) ==> Inv(t, r)
  {
    if c.calibMode then
      s.(history := s.history + [Line(CalibClick(c.at), "")])
    else if s.round >= |t.questions| then
      s
    else
      var b := t.buildings[t.questions[s.round]].bounds;
      if LooksUnset(b) then
        s.(history := s.history + [Line(Text(UnsetWarning), "bad")])
      else if PointInBounds(c.at, b) then
        s.(correct := s.correct + 1,
           history := s.history + [Line(Text(CorrectText), "good")],
           feedback := Some(Feedback(b, "green")),
           round := s.round + 1)
      else
        s.(incorrect := s.incorrect + 1,
           history := s.history + [Line(Text(WrongText), "bad")],
           feedback := Some(Feedback(b, "red")),
           round := s.round + 1)
  }

  /** A sequence of double-clicks, handled one after another. */
  function Play(t: Tables, s: State, clicks: seq<Click>): (r: State)
    requires t.Consistent()
    ensures Inv(t, s) ==> Inv(t, r)
    ensures s.round <= r.round && s.correct <= r.correct && s.incorrect <= r.incorrect
    ensures |s.history| <= |r.history| <= |s.history| + |clicks|
    ensures r.history[..|s.history|] == s.history
    decreases |clicks|
  {
    if clicks == [] then s else Play(t, Step(t, s, clicks[0]), clicks[1..])
  }

  /** After the last question, any number of scoring clicks change nothing. */
  lemma {:induction false} PlayAfterFinish(t: Tables, s: State, clicks: seq<Click>)
    requires t.Consistent() && Finished(t, s)
    requires forall i :: 0 <= i < |clicks| ==> !clicks[i].calibMode
    ensures Play(t, s, clicks) == s
    decreases |clicks|
  {
    if clicks != [] {
      PlayAfterFinish(t, Step(t, s, clicks[0]), clicks[1..]);
    }
  }

  /** Calibration clicks never touch the score: each adds exactly one line. */
  lemma {:induction false} PlayCalibrationOnly(t: Tables, s: State, clicks: seq<Click>)
    requires t.Consistent()
    requires forall i :: 0 <= i < |clicks| ==> clicks[i].calibMode
    ensures SameScore(Play(t, s, clicks), s)
    ensures Play(t, s, clicks).feedback == s.feedback
    ensures Appended(Play(t, s, clicks), s, |clicks|)
    decreases |clicks|
  {
    if clicks != [] {
      var s' := Step(t, s, clicks[0]);
      PlayCalibrationOnly(t, s', clicks[1..]);
      var r := Play(t, s', clicks[1..]);
      assert r.history[..|s.history|] == r.history[..|s'.history|][..|s.history|];
    }
  }

  /** One click on the first corner of each building, in question order. */
  function FirstCorners(t: Tables): seq<Click>
    requires t.Consistent()
  {
    seq(|t.questions|, i requires 0 <= i < |t.questions| =>
      Click(t.buildings[t.questions[i]].bounds.first, false))
  }

  /** From any consistent start, a round of correct clicks on calibrated
      buildings finishes the game one verdict further, and correct. */
  lemma {:induction false} PlayAllHits(t: Tables, s: State, clicks: seq<Click>)
    requires t.Consistent() && t.Calibrated() && Inv(t, s)
    requires s.round + |clicks| == |t.questions|
    requires forall i :: 0 <= i < |clicks| ==>
               !clicks[i].calibMode &&
               PointInBounds(clicks[i].at, t.buildings[t.questions[s.round + i]].bounds)
    ensures Play(t, s, clicks).correct == s.correct + |clicks|
    ensures Play(t, s, clicks).incorrect == s.incorrect
    ensures Finished(t, Play(t, s, clicks)) && Inv(t, Play(t, s, clicks))
    decreases |clicks|
  {
    if clicks != [] {
      var s' := Step(t, s, clicks[0]);
      assert s'.round == s.round + 1;
      forall i | 0 <= i < |clicks[1..]|
        ensures !clicks[1..][i].calibMode &&
                PointInBounds(clicks[1..][i].at, t.buildings[t.questions[s'.round + i]].bounds)
      {
        assert clicks[1..][i] == clicks[i + 1];
        assert s'.round + i == s.round + (i + 1);
      }
      PlayAllHits(t, s', clicks[1..]);
    }
  }

  /** Five correct answers from the start: 5 correct, 0 incorrect, finished. */
  lemma AllCorrectGame()
    ensures Standard.Consistent()
    ensures Play(Standard, Start, FirstCorners(Standard)).correct == 5
    ensures Play(Standard, Start, FirstCorners(Standard)).incorrect == 0
    ensures Finished(Standard, Play(Standard, Start, FirstCorners(Standard)))
  {
    StandardTables();
    var cs := FirstCorners(Standard);
    forall i | 0 <= i < |cs|
      ensures !cs[i].calibMode &&
              PointInBounds(cs[i].at, Buildings[Questions[Start.round + i]].bounds)
    {
      var b := Buildings[Questions[i]].bounds;
      PointInBoundsCorners(b);
    }
    PlayAllHits(Standard, Start, cs);
  }

  /** The game's globals, updated in place by the page's event handlers. */
  class QuizGame {
    /** The building table and question list the handlers read. */
    const tables: Tables
    var round: nat
    var correct: nat
    var incorrect: nat
    var history: seq<Line>
    var feedback: Option<Feedback>

    function Snapshot(): State
      reads this
    {
      State(round, correct, incorrect, history, feedback)
    }

    ghost predicate Valid()
      reads this
    {
      tables.Consistent() && Inv(tables, Snapshot())
    }

    /** The values of the globals when the script is loaded. */
    constructor ()
      ensures tables == Standard
      ensures Valid() && Snapshot() == Start
    {
      tables := Standard;
      round, correct, incorrect := 0, 0, 0;
      history := [];
      feedback := None;
      new;
      StandardTables();
    }

    /** Remove the feedback rectangle, if one is drawn. */
    method ClearFeedback()
      modifies this`feedback
      ensures feedback == None
    {
      if feedback.Some? {
        feedback := None;
      }
    }

    /** Replace any feedback rectangle with `b` drawn in `color`. */
    method ShowBounds(b: Bounds, color: string)
      modifies this`feedback
      ensures feedback == Some(Feedback(b, color))
    {
      ClearFeedback();
      feedback := Some(Feedback(b, color));
    }

    /** Append a line to the history log. */
    method AddHistoryLine(text: Message, cls: string)
      modifies this`history
      ensures history == old(history) + [Line(text, cls)]
    {
      history := history + [Line(text, cls)];
    }

    /** Start a new game: zero the counters, empty the log, clear the map. */
    method Reset()
      requires Valid()
      modifies this
      ensures Valid() && Snapshot() == Start
    {
      round := 0;
      correct := 0;
      incorrect := 0;
      history := [];
      ClearFeedback();
    }

    /** Handle one double-click on the map. */
    method DoubleClick(at: LatLng, calibMode: bool)
      requires Valid()
      modifies this
      ensures Valid()
      ensures Snapshot() == Step(tables, old(Snapshot()), Click(at, calibMode))
    {
      if calibMode {
        AddHistoryLine(CalibClick(at), "");
        return;
      }

      if round >= |tables.questions| {
        return;
      }

      var name := tables.questions[round];
      var building := tables.buildings[name];

      var b := building.bounds;
      var looksUnset := b.first.lat == 0.0 && b.first.lng == 0.0 &&
                        b.second.lat == 0.0 && b.second.lng == 0.0;
      if looksUnset {
        AddHistoryLine(Text(UnsetWarning), "bad");
        return;
      }

      var isCorrect := PointInBounds(at, building.bounds);

      if isCorrect {
        correct := correct + 1;
        AddHistoryLine(Text(CorrectText), "good");
        ShowBounds(building.bounds, "green");
      } else {
        incorrect := incorrect + 1;
        AddHistoryLine(Text(WrongText), "bad");
        ShowBounds(building.bounds, "red");
      }

      round := round + 1;
    }
  }
}
