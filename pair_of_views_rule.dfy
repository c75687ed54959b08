/** PairOfViewsWithSpecialNamesGraphRule: a primary-DAC rule that looks for two views with
    given names in a graph and proposes their DAC when they agree. */
module PairOfViewsRule {
  import opened Wrappers
  import opened Text
  import opened Symbols

  /** A graph view: its name and the DAC GetDacFromView finds in its type, if any. */
  datatype GraphView = GraphView(name: string, dac: Option<TypeId>)

  /** The part of the primary-DAC finder the rule reads; `hasGraph` is false when the
      finder or its graph is null. Cancellation is a fixed flag of the run. */
  datatype PrimaryDacFinder = PrimaryDacFinder(hasGraph: bool, cancellationRequested: bool, graphViews: seq<GraphView>)

  datatype PairOfViewsWithSpecialNamesGraphRule = PairOfViewsWithSpecialNamesGraphRule(firstName: string, secondName: string)

  /** The constructor: both names must be non-blank, the first checked first. */
  function NewRule(firstName: Option<string>, secondName: Option<string>): (r: Result<PairOfViewsWithSpecialNamesGraphRule>)
    ensures r.Ok? <==> !IsNullOrWhiteSpace(firstName) && !IsNullOrWhiteSpace(secondName)
    ensures r.Ok? ==> r.value.firstName == firstName.value && r.value.secondName == secondName.value
                      && r.value.firstName != [] && r.value.secondName != []
    ensures IsNullOrWhiteSpace(firstName) ==> r == Err(ArgumentNull("aFirstName"))
    ensures !IsNullOrWhiteSpace(firstName) && IsNullOrWhiteSpace(secondName) ==> r == Err(ArgumentNull("aSecondName"))
  {
    if IsNullOrWhiteSpace(firstName) then Err(ArgumentNull("aFirstName"))
    else if IsNullOrWhiteSpace(secondName) then Err(ArgumentNull("aSecondName"))
    else Ok(PairOfViewsWithSpecialNamesGraphRule(firstName.value, secondName.value))
  }

  /** ChooseDacCandidate: a candidate only one view proposes, or the common candidate of
      both; two different candidates cancel out. */
  function ChooseDacCandidate(firstDacCandidate: Option<TypeId>, secondDacCandidate: Option<TypeId>): (r: Option<TypeId>)
    ensures r.Some? ==> r == firstDacCandidate || r == secondDacCandidate
    ensures r.Some? <==> (firstDacCandidate.Some? || secondDacCandidate.Some?)
                         && (firstDacCandidate.Some? && secondDacCandidate.Some? ==> firstDacCandidate == secondDacCandidate)
    ensures firstDacCandidate == secondDacCandidate ==> r == firstDacCandidate
  {
    if firstDacCandidate.None? && secondDacCandidate.None? then None
    else if firstDacCandidate.Some? && secondDacCandidate.Some? then
      if firstDacCandidate == secondDacCandidate then firstDacCandidate else None
    else if firstDacCandidate.Some? then firstDacCandidate
    else secondDacCandidate
  }

  /** The loop's variables. */
  datatype ScanState = ScanState(firstNameFound: bool, secondNameFound: bool,
                                 firstDacCandidate: Option<TypeId>, secondDacCandidate: Option<TypeId>)

  const InitialState := ScanState(false, false, None, None)

  /** One run of the loop over the remaining views: a view with the first name, then one
      with the second name, records its DAC; any other view stops the loop once both names
      have been seen. */
  function Scan(rule: PairOfViewsWithSpecialNamesGraphRule, views: seq<GraphView>, state: ScanState): ScanState
  {
    if views == [] then state
    else if views[0].name == rule.firstName then
      Scan(rule, views[1..], state.(firstNameFound := true, firstDacCandidate := views[0].dac))
    else if views[0].name == rule.secondName then
      Scan(rule, views[1..], state.(secondNameFound := true, secondDacCandidate := views[0].dac))
    else if state.firstNameFound && state.secondNameFound then state
    else Scan(rule, views[1..], state)
  }

  /** The rule's answer: nothing without a graph, on cancellation or without views;
      otherwise the chosen candidate, if any. */
  function Candidates(rule: PairOfViewsWithSpecialNamesGraphRule, finder: PrimaryDacFinder): seq<TypeId>
  {
    if !finder.hasGraph || finder.cancellationRequested || finder.graphViews == [] then []
    else
      var final := Scan(rule, finder.graphViews, InitialState);
      var dacCandidate := ChooseDacCandidate(final.firstDacCandidate, final.secondDacCandidate);
      if dacCandidate.Some? then [dacCandidate.value] else []
  }

  /** The loop only stops early after both names were seen, so the first name is found
      exactly when some view carries it, and its candidate is the DAC of such a view. */
  lemma {:induction false} ScanFindsFirstName(rule: PairOfViewsWithSpecialNamesGraphRule, views: seq<GraphView>, state: ScanState)
    ensures Scan(rule, views, state).firstNameFound <==>
              state.firstNameFound || exists i :: 0 <= i < |views| && views[i].name == rule.firstName
    ensures Scan(rule, views, state).firstDacCandidate == state.firstDacCandidate
            || exists i :: 0 <= i < |views| && views[i].name == rule.firstName
                           && Scan(rule, views, state).firstDacCandidate == views[i].dac
    decreases |views|
  {
    if views != [] {
      var v := views[0];
      var next := if v.name == rule.firstName then state.(firstNameFound := true, firstDacCandidate := v.dac)
                  else if v.name == rule.secondName then state.(secondNameFound := true, secondDacCandidate := v.dac)
                  else state;
      if v.name == rule.firstName || v.name == rule.secondName || !(state.firstNameFound && state.secondNameFound) {
        ScanFindsFirstName(rule, views[1..], next);
        assert forall i :: 0 <= i < |views[1..]| ==> views[1..][i] == views[i + 1];
        if exists i :: 0 <= i < |views| && views[i].name == rule.firstName {
          var i :| 0 <= i < |views| && views[i].name == rule.firstName;
          if i > 0 {
            assert views[1..][i - 1].name == rule.firstName;
          }
        }
      }
    }
  }

  /** The rule proposes at most one DAC, and only a DAC some view carries. */
  lemma CandidatesAreFew(rule: PairOfViewsWithSpecialNamesGraphRule, finder: PrimaryDacFinder)
    ensures |Candidates(rule, finder)| <= 1
    ensures forall d :: d in Candidates(rule, finder) ==> exists i :: 0 <= i < |finder.graphViews| && finder.graphViews[i].dac == Some(d)
  {
    if finder.hasGraph && !finder.cancellationRequested && finder.graphViews != [] {
      var final := Scan(rule, finder.graphViews, InitialState);
      ScanFindsFirstName(rule, finder.graphViews, InitialState);
      ScanFindsSecondName(rule, finder.graphViews, InitialState);
    }
  }

  /** The counterpart of ScanFindsFirstName for the second name. A view whose name is also
      the first name is taken by the first branch, so only second views count. */
  lemma {:induction false} ScanFindsSecondName(rule: PairOfViewsWithSpecialNamesGraphRule, views: seq<GraphView>, state: ScanState)
    ensures Scan(rule, views, state).secondNameFound <==>
              state.secondNameFound || exists i :: 0 <= i < |views| && IsSecondView(rule, views[i])
    ensures Scan(rule, views, state).secondDacCandidate == state.secondDacCandidate
            || exists i :: 0 <= i < |views| && views[i].name == rule.secondName
                           && Scan(rule, views, state).secondDacCandidate == views[i].dac
    decreases |views|
  {
    if views != [] {
      var v := views[0];
      var next := if v.name == rule.firstName then state.(firstNameFound := true, firstDacCandidate := v.dac)
                  else if v.name == rule.secondName then state.(secondNameFound := true, secondDacCandidate := v.dac)
                  else state;
      if v.name == rule.firstName || v.name == rule.secondName || !(state.firstNameFound && state.secondNameFound) {
        ScanFindsSecondName(rule, views[1..], next);
        assert forall i :: 0 <= i < |views[1..]| ==> views[1..][i] == views[i + 1];
        if exists i :: 0 <= i < |views| && IsSecondView(rule, views[i]) {
          var i :| 0 <= i < |views| && IsSecondView(rule, views[i]);
          if i > 0 {
            assert IsSecondView(rule, views[1..][i - 1]);
          }
        }
        if Scan(rule, views[1..], next).secondDacCandidate != next.secondDacCandidate {
          var i :| 0 <= i < |views[1..]| && views[1..][i].name == rule.secondName
                   && Scan(rule, views[1..], next).secondDacCandidate == views[1..][i].dac;
          assert views[i + 1] == views[1..][i];
        }
      }
    }
  }

  /** A view the loop takes as a second-name view: the second name, unless it is also the
      first name. */
  predicate IsSecondView(rule: PairOfViewsWithSpecialNamesGraphRule, v: GraphView)
  {
    v.name == rule.secondName && v.name != rule.firstName
  }

  /** The loop stops at index `s`: the view there has neither name, and both names were
      seen before it, in the views or in the starting state. */
  predicate StopsAt(rule: PairOfViewsWithSpecialNamesGraphRule, views: seq<GraphView>, state: ScanState, s: int)
  {
    && 0 <= s < |views|
    && views[s].name != rule.firstName && views[s].name != rule.secondName
    && (state.firstNameFound || exists i :: 0 <= i < s && views[i].name == rule.firstName)
    && (state.secondNameFound || exists i :: 0 <= i < s && IsSecondView(rule, views[i]))
  }

  /** Views from a stopping index on never affect the loop's outcome. */
  lemma {:induction false} ScanStopsAt(rule: PairOfViewsWithSpecialNamesGraphRule, views: seq<GraphView>, state: ScanState, s: int)
    requires StopsAt(rule, views, state, s)
    ensures Scan(rule, views, state) == Scan(rule, views[..s], state)
    decreases s
  {
    if s > 0 {
      var v := views[0];
      var prefix := views[..s];
      assert prefix[0] == v && prefix[1..] == views[1..][..s - 1];
      if v.name == rule.firstName || v.name == rule.secondName || !(state.firstNameFound && state.secondNameFound) {
        var next := if v.name == rule.firstName then state.(firstNameFound := true, firstDacCandidate := v.dac)
                    else if v.name == rule.secondName then state.(secondNameFound := true, secondDacCandidate := v.dac)
                    else state;
        assert views[1..][s - 1] == views[s];
        if !next.firstNameFound {
          var i :| 0 <= i < s && views[i].name == rule.firstName;
          assert i > 0 && views[1..][i - 1].name == rule.firstName;
        }
        if !next.secondNameFound {
          var i :| 0 <= i < s && IsSecondView(rule, views[i]);
          assert i > 0 && IsSecondView(rule, views[1..][i - 1]);
        }
        assert StopsAt(rule, views[1..], next, s - 1);
        ScanStopsAt(rule, views[1..], next, s - 1);
      }
    }
  }

  /** On views where the loop never stops early, each candidate is the DAC of the last view
      with its name, or the starting value when no view has that name. */
  lemma {:induction false} ScanWithoutStop(rule: PairOfViewsWithSpecialNamesGraphRule, views: seq<GraphView>, state: ScanState)
    requires forall s :: 0 <= s < |views| ==> !StopsAt(rule, views, state, s)
    ensures (forall i :: 0 <= i < |views| ==> views[i].name != rule.firstName) ==>
              Scan(rule, views, state).firstDacCandidate == state.firstDacCandidate
    ensures forall i :: 0 <= i < |views| && views[i].name == rule.firstName
                        && (forall j :: i < j < |views| ==> views[j].name != rule.firstName) ==>
              Scan(rule, views, state).firstDacCandidate == views[i].dac
    ensures (forall i :: 0 <= i < |views| ==> !IsSecondView(rule, views[i])) ==>
              Scan(rule, views, state).secondDacCandidate == state.secondDacCandidate
    ensures forall i :: 0 <= i < |views| && IsSecondView(rule, views[i])
                        && (forall j :: i < j < |views| ==> !IsSecondView(rule, views[j])) ==>
              Scan(rule, views, state).secondDacCandidate == views[i].dac
    decreases |views|
  {
    if views != [] {
      var v := views[0];
      var rest := views[1..];
      assert !StopsAt(rule, views, state, 0);
      var next := if v.name == rule.firstName then state.(firstNameFound := true, firstDacCandidate := v.dac)
                  else if v.name == rule.secondName then state.(secondNameFound := true, secondDacCandidate := v.dac)
                  else state;
      assert Scan(rule, views, state) == Scan(rule, rest, next);
      assert forall k :: 0 <= k < |rest| ==> rest[k] == views[k + 1];
      forall s | 0 <= s < |rest| ensures !StopsAt(rule, rest, next, s) {
        if StopsAt(rule, rest, next, s) {
          if !state.firstNameFound {
            if next.firstNameFound {
              assert views[0].name == rule.firstName;
            } else {
              var i :| 0 <= i < s && rest[i].name == rule.firstName;
              assert views[i + 1].name == rule.firstName;
            }
          }
          if !state.secondNameFound {
            if next.secondNameFound {
              assert IsSecondView(rule, views[0]);
            } else {
              var i :| 0 <= i < s && IsSecondView(rule, rest[i]);
              assert IsSecondView(rule, views[i + 1]);
            }
          }
          assert StopsAt(rule, views, state, s + 1);
          assert false;
        }
      }
      ScanWithoutStop(rule, rest, next);
      forall i | 0 <= i < |views| && views[i].name == rule.firstName
                 && (forall j :: i < j < |views| ==> views[j].name != rule.firstName)
        ensures Scan(rule, views, state).firstDacCandidate == views[i].dac
      {
        if i > 0 {
          assert rest[i - 1] == views[i];
          assert forall j :: i - 1 < j < |rest| ==> rest[j] == views[j + 1];
        } else {
          assert forall j :: 0 <= j < |rest| ==> rest[j].name != rule.firstName by {
            forall j | 0 <= j < |rest| ensures rest[j].name != rule.firstName {
              assert rest[j] == views[j + 1];
            }
          }
        }
      }
      forall i | 0 <= i < |views| && IsSecondView(rule, views[i])
                 && (forall j :: i < j < |views| ==> !IsSecondView(rule, views[j]))
        ensures Scan(rule, views, state).secondDacCandidate == views[i].dac
      {
        if i > 0 {
          assert rest[i - 1] == views[i];
          assert forall j :: i - 1 < j < |rest| ==> rest[j] == views[j + 1];
        } else {
          assert forall j :: 0 <= j < |rest| ==> !IsSecondView(rule, rest[j]) by {
            forall j | 0 <= j < |rest| ensures !IsSecondView(rule, rest[j]) {
              assert rest[j] == views[j + 1];
            }
          }
        }
      }
      if forall i :: 0 <= i < |views| ==> views[i].name != rule.firstName {
        assert v.name != rule.firstName;
      }
      if forall i :: 0 <= i < |views| ==> !IsSecondView(rule, views[i]) {
        assert !IsSecondView(rule, v);
      }
    }
  }

  /** The rule's answer ignores every view from the index where the loop stops: whatever
      follows the stop, the candidates are those of the views before it. */
  lemma ViewsAfterStopAreIgnored(rule: PairOfViewsWithSpecialNamesGraphRule, finder: PrimaryDacFinder, s: int, later: seq<GraphView>)
    requires StopsAt(rule, finder.graphViews, InitialState, s)
    ensures Candidates(rule, finder) == Candidates(rule, finder.(graphViews := finder.graphViews[..s]))
    ensures Candidates(rule, finder) == Candidates(rule, finder.(graphViews := finder.graphViews[..s + 1] + later))
  {
    var views := finder.graphViews;
    var other := views[..s + 1] + later;
    ScanStopsAt(rule, views, InitialState, s);
    assert other[..s] == views[..s];
    assert forall i :: 0 <= i <= s ==> other[i] == views[i];
    assert StopsAt(rule, other, InitialState, s);
    ScanStopsAt(rule, other, InitialState, s);
  }

  /** GetCandidatesFromGraphRule: the loop over the graph's views. */
  method GetCandidatesFromGraphRule(rule: PairOfViewsWithSpecialNamesGraphRule, finder: PrimaryDacFinder) returns (r: seq<TypeId>)
    ensures r == Candidates(rule, finder)
    ensures |r| <= 1
    ensures !finder.hasGraph || finder.cancellationRequested || finder.graphViews == [] ==> r == []
  {
    CandidatesAreFew(rule, finder);
    if !finder.hasGraph || finder.cancellationRequested || |finder.graphViews| == 0 {
      return [];
    }
    var views := finder.graphViews;
    var firstNameFound, secondNameFound := false, false;
    var firstDacCandidate: Option<TypeId>, secondDacCandidate: Option<TypeId> := None, None;
    var i := 0;
    while i < |views|
      invariant 0 <= i <= |views|
      invariant Scan(rule, views, InitialState)
                == Scan(rule, views[i..], ScanState(firstNameFound, secondNameFound, firstDacCandidate, secondDacCandidate))
    {
      if finder.cancellationRequested {
        return [];
      }
      var view := views[i];
      assert views[i..][1..] == views[i + 1..];
      if view.name == rule.firstName {
        firstNameFound := true;
        firstDacCandidate := view.dac;
        i := i + 1;
        continue;
      }
      if view.name == rule.secondName {
        secondNameFound := true;
        secondDacCandidate := view.dac;
        i := i + 1;
        continue;
      }
      if firstNameFound && secondNameFound {
        break;
      }
      i := i + 1;
    }
    var dacCandidate := ChooseDacCandidate(firstDacCandidate, secondDacCandidate);
    r := if dacCandidate.Some? then [dacCandidate.value] else [];
  }

  /** Fixtures: views named "Document" and "CurrentDocument" over DACs 1 and 2. */
  const DocumentsRule := PairOfViewsWithSpecialNamesGraphRule("Document", "CurrentDocument")

  /** An instance of ScanWithoutStop: a later view with the first name overwrites the
      earlier candidate. */
  lemma LaterFirstViewOverwrites()
    ensures Candidates(DocumentsRule, PrimaryDacFinder(true, false,
              [GraphView("Document", Some(1)), GraphView("Document", Some(2)), GraphView("CurrentDocument", Some(2))])) == [2]
  {
    var views := [GraphView("Document", Some(1)), GraphView("Document", Some(2)), GraphView("CurrentDocument", Some(2))];
    assert views[1..][1..][1..] == [];
  }

  /** An instance of ViewsAfterStopAreIgnored: once both names were seen, another view
      stops the loop before a later first-named view can overwrite the candidate; the two
      candidates then disagree and cancel out. */
  lemma OtherViewStopsTheLoop()
    ensures Candidates(DocumentsRule, PrimaryDacFinder(true, false,
              [GraphView("Document", Some(1)), GraphView("CurrentDocument", Some(2)), GraphView("Lines", Some(3)),
               GraphView("Document", Some(2))])) == []
  {
    var views := [GraphView("Document", Some(1)), GraphView("CurrentDocument", Some(2)), GraphView("Lines", Some(3)),
                  GraphView("Document", Some(2))];
    assert views[1..][1..][0].name == "Lines";
  }
}
