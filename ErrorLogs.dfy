/** ErrorLogsClassifier: the classification responses read out of a run's
    error logs. Each log event carries an MDC (the diagnostic tags the
    pipeline attached) and a throwable with its chain of causes; every
    throwable in the chain whose class provides failure details contributes
    one response, kept per failed stage (at most one per stage) or, without
    a stage, in a set.

    `Contributions` lists the contributing (MDC, throwable) pairs in the order
    the loops meet them, `Fold` applies `PopulateResponse` to them, and
    `Classify` is the loop that computes the same thing. */
module ErrorLogs {
  import opened Wrappers
  import opened JavaStrings

  const WRAPPED_STAGE_EXCEPTION := "io.cdap.cdap.api.exception.WrappedStageException"
  const DATAPROC_RUNTIME_EXCEPTION := "io.cdap.cdap.runtime.spi.provisioner.dataproc.DataprocRuntimeException"
  const ALLOWLIST_CLASSES := [DATAPROC_RUNTIME_EXCEPTION]

  /** Whether the class of that name can be assigned to FailureDetailsProvider;
      None when `Class.forName` throws. */
  type ClassLookup = string -> Option<bool>

  datatype ThrowableProxy = ThrowableProxy(className: string, message: Option<string>)

  /** The MDC tags the classifier reads. */
  datatype Mdc = Mdc(
    failedStage: Option<string>, errorCategory: Option<string>, errorReason: Option<string>,
    errorType: Option<string>, dependency: Option<string>, errorCodeType: Option<string>,
    errorCode: Option<string>, supportedDocUrl: Option<string>)

  /** A logging event: its MDC, and its throwable followed by the throwable's
      causes (empty when the event has no throwable). */
  datatype LogEvent = LogEvent(mdc: Mdc, throwables: seq<ThrowableProxy>)

  datatype ErrorClassificationResponse = ErrorClassificationResponse(
    stageName: Option<string>, errorCategory: Option<string>, errorReason: Option<string>,
    errorMessage: Option<string>, errorType: string, dependency: string,
    errorCodeType: Option<string>, errorCode: Option<string>,
    supportedDocumentationUrl: Option<string>, throwableClassName: string)

  /** `isFailureDetailsProviderInstance`: an allowlisted class, or one assignable
      to FailureDetailsProvider; a class that cannot be loaded does not count. */
  predicate IsFailureDetailsProviderInstance(className: string, lookup: ClassLookup) {
    className in ALLOWLIST_CLASSES || lookup(className) == Some(true)
  }

  lemma ProviderInstanceCases(className: string, lookup: ClassLookup)
    ensures className == DATAPROC_RUNTIME_EXCEPTION ==> IsFailureDetailsProviderInstance(className, lookup)
    ensures className != DATAPROC_RUNTIME_EXCEPTION ==>
      (IsFailureDetailsProviderInstance(className, lookup) <==> lookup(className) == Some(true))
  {
  }

  /** `getClassificationResponse`: the MDC tags copied over, an absent error
      type read as UNKNOWN and an absent dependency as "false". */
  function GetClassificationResponse(stageName: Option<string>, mdc: Mdc, t: ThrowableProxy,
                                     errorCategory: Option<string>): (r: ErrorClassificationResponse)
    ensures r.stageName == stageName && r.errorCategory == errorCategory
    ensures r.errorType == (if mdc.errorType.None? then "UNKNOWN" else mdc.errorType.value)
    ensures r.dependency == (if mdc.dependency.None? then "false" else mdc.dependency.value)
    ensures r.throwableClassName == t.className && r.errorMessage == t.message
    ensures r.errorReason == mdc.errorReason && r.errorCodeType == mdc.errorCodeType &&
            r.errorCode == mdc.errorCode && r.supportedDocumentationUrl == mdc.supportedDocUrl
  {
    ErrorClassificationResponse(
      stageName, errorCategory, mdc.errorReason, t.message,
      mdc.errorType.GetOr("UNKNOWN"), mdc.dependency.GetOr("false"),
      mdc.errorCodeType, mdc.errorCode, mdc.supportedDocUrl, t.className)
  }

  /** The category of a response for a present stage: `%s-'%s'` of the MDC
      category (null printed as "null") and the stage. */
  function StageCategory(category: Option<string>, stage: string): string {
    Render(category) + "-'" + stage + "'"
  }

  /** One throwable that reaches `populateResponse`, with its event's MDC. */
  datatype Contribution = Contribution(mdc: Mdc, throwable: ThrowableProxy)

  predicate Stageless(c: Contribution) {
    IsNullOrEmpty(c.mdc.failedStage)
  }

  /** The response `populateResponse` builds for a contribution. */
  function ResponseFor(c: Contribution): (r: ErrorClassificationResponse)
    ensures r.stageName == c.mdc.failedStage && r.throwableClassName == c.throwable.className
    ensures Stageless(c) ==> r.errorCategory == c.mdc.errorCategory
    ensures !Stageless(c) ==> r.errorCategory == Some(StageCategory(c.mdc.errorCategory, c.mdc.failedStage.value))
  {
    if Stageless(c) then GetClassificationResponse(c.mdc.failedStage, c.mdc, c.throwable, c.mdc.errorCategory)
    else GetClassificationResponse(c.mdc.failedStage, c.mdc, c.throwable,
                                   Some(StageCategory(c.mdc.errorCategory, c.mdc.failedStage.value)))
  }

  predicate Wrapped(r: ErrorClassificationResponse) {
    r.throwableClassName == WRAPPED_STAGE_EXCEPTION
  }

  datatype Classification = Classification(
    responseMap: map<string, ErrorClassificationResponse>,
    responseSet: set<ErrorClassificationResponse>)

  const Empty := Classification(map[], {})

  /** `populateResponse`: a response without a stage joins the set; one with
      a stage is stored unless the stage already holds one, and even then
      replaces a stored WrappedStageException. */
  function PopulateResponse(st: Classification, c: Contribution): Classification {
    var r := ResponseFor(c);
    if Stageless(c) then st.(responseSet := st.responseSet + {r})
    else
      var stage := c.mdc.failedStage.value;
      var m := if stage in st.responseMap then st.responseMap else st.responseMap[stage := r];
      if Wrapped(m[stage]) then st.(responseMap := m[stage := r]) else st.(responseMap := m)
  }

  /** The contributions of one event's chain, in chain order. */
  function ChainContributions(mdc: Mdc, chain: seq<ThrowableProxy>, lookup: ClassLookup): seq<Contribution> {
    if chain == [] then []
    else
      var t := chain[|chain| - 1];
      ChainContributions(mdc, chain[..|chain| - 1], lookup) +
      (if IsFailureDetailsProviderInstance(t.className, lookup) then [Contribution(mdc, t)] else [])
  }

  /** The contributions of a sequence of events, in the order `classify` meets them. */
  function Contributions(events: seq<LogEvent>, lookup: ClassLookup): seq<Contribution> {
    if events == [] then []
    else
      var e := events[|events| - 1];
      Contributions(events[..|events| - 1], lookup) + ChainContributions(e.mdc, e.throwables, lookup)
  }

  function Fold(cs: seq<Contribution>): Classification {
    if cs == [] then Empty else PopulateResponse(Fold(cs[..|cs| - 1]), cs[|cs| - 1])
  }

  /** What `classify` accumulates for the events. */
  function ClassifyEvents(events: seq<LogEvent>, lookup: ClassLookup): Classification {
    Fold(Contributions(events, lookup))
  }

  // ---------------------------------------------------------- the loop

  /** `classify`: all map values, then all set elements. HashMap and HashSet
      order is unspecified, so the order within each part is too. */
  method Classify(events: seq<LogEvent>, lookup: ClassLookup) returns (responses: seq<ErrorClassificationResponse>)
    ensures var st := ClassifyEvents(events, lookup);
      |responses| == |st.responseMap| + |st.responseSet| &&
      (forall i :: 0 <= i < |st.responseMap| ==> responses[i] in st.responseMap.Values) &&
      (forall k :: k in st.responseMap ==> st.responseMap[k] in responses[..|st.responseMap|]) &&
      (forall i :: |st.responseMap| <= i < |responses| ==> responses[i] in st.responseSet) &&
      (forall r :: r in st.responseSet ==> r in responses[|st.responseMap|..])
  {
    var responseMap: map<string, ErrorClassificationResponse> := map[];
    var responseSet: set<ErrorClassificationResponse> := {};
    var i := 0;
    while i < |events|
      invariant 0 <= i <= |events|
      invariant Classification(responseMap, responseSet) == Fold(Contributions(events[..i], lookup))
    {
      var mdc := events[i].mdc;
      var chain := events[i].throwables;
      ghost var before := Contributions(events[..i], lookup);
      ChainStep(before, mdc, chain, 0, lookup);
      var j := 0;
      while j < |chain|
        invariant 0 <= j <= |chain|
        invariant Classification(responseMap, responseSet) == Fold(before + ChainContributions(mdc, chain[..j], lookup))
      {
        var t := chain[j];
        ghost var cs := before + ChainContributions(mdc, chain[..j], lookup);
        ChainStep(before, mdc, chain, j + 1, lookup);
        if IsFailureDetailsProviderInstance(t.className, lookup) {
          assert before + ChainContributions(mdc, chain[..j + 1], lookup) == cs + [Contribution(mdc, t)];
          FoldAppend(cs, Contribution(mdc, t));
          var st := PopulateResponse(Classification(responseMap, responseSet), Contribution(mdc, t));
          responseMap, responseSet := st.responseMap, st.responseSet;
        } else {
          assert before + ChainContributions(mdc, chain[..j + 1], lookup) == cs + [];
          assert cs + [] == cs;
        }
        j := j + 1;
      }
      EventStep(events, i, lookup);
      i := i + 1;
    }
    assert events[..i] == events;
    var values := MapValues(responseMap);
    var elements := SetElements(responseSet);
    responses := Concat(values, elements, responseMap, responseSet);
  }

  /** The output list: the map's values, then the set's elements. */
  method Concat(values: seq<ErrorClassificationResponse>, elements: seq<ErrorClassificationResponse>,
                m: map<string, ErrorClassificationResponse>, s: set<ErrorClassificationResponse>)
    returns (responses: seq<ErrorClassificationResponse>)
    requires |values| == |m| && (forall i :: 0 <= i < |values| ==> values[i] in m.Values) && (forall k :: k in m ==> m[k] in values)
    requires |elements| == |s| && (forall i :: 0 <= i < |elements| ==> elements[i] in s) && (forall x :: x in s ==> x in elements)
    ensures |responses| == |m| + |s|
    ensures forall i :: 0 <= i < |m| ==> responses[i] in m.Values
    ensures forall k :: k in m ==> m[k] in responses[..|m|]
    ensures forall i :: |m| <= i < |responses| ==> responses[i] in s
    ensures forall x :: x in s ==> x in responses[|m|..]
  {
    responses := values + elements;
    assert responses[..|m|] == values;
    assert responses[|m|..] == elements;
  }

  lemma FoldAppend(cs: seq<Contribution>, c: Contribution)
    ensures Fold(cs + [c]) == PopulateResponse(Fold(cs), c)
  {
    assert (cs + [c])[..|cs|] == cs;
  }

  lemma ChainStep(before: seq<Contribution>, mdc: Mdc, chain: seq<ThrowableProxy>, j: nat, lookup: ClassLookup)
    requires j <= |chain|
    ensures j == 0 ==> before + ChainContributions(mdc, chain[..j], lookup) == before
    ensures j > 0 ==>
      (before + ChainContributions(mdc, chain[..j], lookup) ==
       before + ChainContributions(mdc, chain[..j - 1], lookup) +
       (if IsFailureDetailsProviderInstance(chain[j - 1].className, lookup) then [Contribution(mdc, chain[j - 1])] else []))
  {
    if j == 0 {
      assert chain[..0] == [];
      assert before + [] == before;
    } else {
      assert chain[..j][..j - 1] == chain[..j - 1];
    }
  }

  lemma EventStep(events: seq<LogEvent>, i: nat, lookup: ClassLookup)
    requires i < |events|
    ensures Contributions(events[..i + 1], lookup) ==
      Contributions(events[..i], lookup) + ChainContributions(events[i].mdc, events[i].throwables[..|events[i].throwables|], lookup)
  {
    assert events[..i + 1][..i] == events[..i];
    assert events[i].throwables[..|events[i].throwables|] == events[i].throwables;
  }

  /** `new ArrayList<>(map.values())`. */
  method MapValues<K, V(==)>(m: map<K, V>) returns (out: seq<V>)
    ensures |out| == |m|
    ensures forall i :: 0 <= i < |out| ==> out[i] in m.Values
    ensures forall k :: k in m ==> m[k] in out
  {
    out := [];
    var keys := m.Keys;
    while keys != {}
      invariant keys <= m.Keys
      invariant |out| + |keys| == |m|
      invariant forall i :: 0 <= i < |out| ==> out[i] in m.Values
      invariant forall k :: k in m && k !in keys ==> m[k] in out
      decreases |keys|
    {
      var k :| k in keys;
      out := out + [m[k]];
      keys := keys - {k};
    }
  }

  /** `list.addAll(set)`: each element once. */
  method SetElements<T>(s: set<T>) returns (out: seq<T>)
    ensures |out| == |s|
    ensures forall i :: 0 <= i < |out| ==> out[i] in s
    ensures forall x :: x in s ==> x in out
  {
    out := [];
    var left := s;
    while left != {}
      invariant left <= s
      invariant |out| + |left| == |s|
      invariant forall i :: 0 <= i < |out| ==> out[i] in s && out[i] !in left
      invariant forall x :: x in s && x !in left ==> x in out
      decreases |left|
    {
      var x :| x in left;
      out := out + [x];
      left := left - {x};
    }
  }

  // ---------------------------------------------------------- which throwables count

  lemma {:induction false} ChainContributionsExactly(mdc: Mdc, chain: seq<ThrowableProxy>, lookup: ClassLookup, c: Contribution)
    ensures c in ChainContributions(mdc, chain, lookup) <==>
      c.mdc == mdc && c.throwable in chain && IsFailureDetailsProviderInstance(c.throwable.className, lookup)
  {
    if chain != [] {
      var init := chain[..|chain| - 1];
      ChainContributionsExactly(mdc, init, lookup, c);
      assert chain == init + [chain[|chain| - 1]];
    }
  }

  /** A throwable contributes exactly when it sits somewhere on the cause
      chain of some event and its class provides failure details. */
  lemma {:induction false} ContributionsExactly(events: seq<LogEvent>, lookup: ClassLookup, c: Contribution)
    ensures c in Contributions(events, lookup) <==>
      (exists i :: 0 <= i < |events| && c.mdc == events[i].mdc && c.throwable in events[i].throwables) &&
      IsFailureDetailsProviderInstance(c.throwable.className, lookup)
  {
    if events != [] {
      var n := |events| - 1;
      ContributionsExactly(events[..n], lookup, c);
      ChainContributionsExactly(events[n].mdc, events[n].throwables, lookup, c);
      if c in Contributions(events, lookup) {
        if c in Contributions(events[..n], lookup) {
          var i :| 0 <= i < n && c.mdc == events[..n][i].mdc && c.throwable in events[..n][i].throwables;
          assert events[i] == events[..n][i];
        }
      } else {
        forall i | 0 <= i < |events| && c.mdc == events[i].mdc && c.throwable in events[i].throwables
          ensures !IsFailureDetailsProviderInstance(c.throwable.className, lookup)
        {
          if i < n {
            assert events[..n][i] == events[i];
          }
        }
      }
    }
  }

  // ---------------------------------------------------------- the set

  /** The responses of the contributions without a stage. */
  function StagelessResponses(cs: seq<Contribution>): set<ErrorClassificationResponse> {
    set i | 0 <= i < |cs| && Stageless(cs[i]) :: ResponseFor(cs[i])
  }

  /** The set holds exactly the responses of the stageless contributions. */
  lemma {:induction false} SetIsStagelessResponses(cs: seq<Contribution>)
    ensures Fold(cs).responseSet == StagelessResponses(cs)
  {
    if cs != [] {
      var n := |cs| - 1;
      SetIsStagelessResponses(cs[..n]);
      forall r | r in StagelessResponses(cs) ensures r in Fold(cs).responseSet {
        var i :| 0 <= i < |cs| && Stageless(cs[i]) && r == ResponseFor(cs[i]);
        if i < n {
          assert cs[..n][i] == cs[i];
        }
      }
      forall r | r in Fold(cs).responseSet ensures r in StagelessResponses(cs) {
        if r in Fold(cs[..n]).responseSet {
          var i :| 0 <= i < n && Stageless(cs[..n][i]) && r == ResponseFor(cs[..n][i]);
          assert cs[..n][i] == cs[i];
        }
      }
    }
  }

  // ---------------------------------------------------------- the map

  /** The responses of the contributions for `stage`, in order. */
  function StageResponses(cs: seq<Contribution>, stage: string): seq<ErrorClassificationResponse> {
    if cs == [] then []
    else
      var c := cs[|cs| - 1];
      StageResponses(cs[..|cs| - 1], stage) +
      (if !Stageless(c) && c.mdc.failedStage.value == stage then [ResponseFor(c)] else [])
  }

  /** The position of the first response that is not a WrappedStageException,
      or the length when there is none. */
  function FirstUnwrapped(rs: seq<ErrorClassificationResponse>): (k: nat)
    ensures k <= |rs|
    ensures forall i :: 0 <= i < k ==> Wrapped(rs[i])
    ensures k < |rs| ==> !Wrapped(rs[k])
  {
    if rs == [] then 0 else if !Wrapped(rs[0]) then 0 else 1 + FirstUnwrapped(rs[1..])
  }

  /** The response a stage is reported with: its first response that is not
      a WrappedStageException, or its last one when all of them are. */
  function Preferred(rs: seq<ErrorClassificationResponse>): ErrorClassificationResponse
    requires rs != []
  {
    if FirstUnwrapped(rs) < |rs| then rs[FirstUnwrapped(rs)] else rs[|rs| - 1]
  }

  lemma {:induction false} FirstUnwrappedAppend(rs: seq<ErrorClassificationResponse>, r: ErrorClassificationResponse)
    ensures FirstUnwrapped(rs + [r]) ==
      if FirstUnwrapped(rs) < |rs| then FirstUnwrapped(rs) else if Wrapped(r) then |rs| + 1 else |rs|
  {
    if rs != [] {
      assert (rs + [r])[1..] == rs[1..] + [r];
      FirstUnwrappedAppend(rs[1..], r);
    }
  }

  /** The preferred response after one more: the new one, unless an earlier
      response that is not a WrappedStageException is already preferred. */
  lemma PreferredAppend(before: seq<ErrorClassificationResponse>, r: ErrorClassificationResponse)
    ensures Preferred(before + [r]) == if before != [] && !Wrapped(Preferred(before)) then Preferred(before) else r
  {
    FirstUnwrappedAppend(before, r);
    if before != [] {
      var k := FirstUnwrapped(before);
      if k < |before| {
        assert (before + [r])[k] == before[k];
      }
    }
  }

  /** What one contribution does to the map entry of `stage`. */
  lemma PopulateStage(st: Classification, c: Contribution, stage: string)
    ensures var m := PopulateResponse(st, c).responseMap;
      if !Stageless(c) && c.mdc.failedStage.value == stage then
        stage in m &&
        m[stage] == (if stage in st.responseMap && !Wrapped(st.responseMap[stage]) then st.responseMap[stage] else ResponseFor(c))
      else
        (stage in m <==> stage in st.responseMap) && (stage in m ==> m[stage] == st.responseMap[stage])
  {
  }

  /** The map has an entry for exactly the stages that had a response, and
      that entry is the stage's preferred response. */
  lemma {:induction false} MapHoldsPreferred(cs: seq<Contribution>, stage: string)
    ensures stage in Fold(cs).responseMap <==> StageResponses(cs, stage) != []
    ensures stage in Fold(cs).responseMap ==> Fold(cs).responseMap[stage] == Preferred(StageResponses(cs, stage))
  {
    if cs != [] {
      var n := |cs| - 1;
      var c := cs[n];
      MapHoldsPreferred(cs[..n], stage);
      assert Fold(cs) == PopulateResponse(Fold(cs[..n]), c);
      PopulateStage(Fold(cs[..n]), c, stage);
      var before := StageResponses(cs[..n], stage);
      if !Stageless(c) && c.mdc.failedStage.value == stage {
        assert StageResponses(cs, stage) == before + [ResponseFor(c)];
        PreferredAppend(before, ResponseFor(c));
      } else {
        assert StageResponses(cs, stage) == before + [];
        assert before + [] == before;
      }
    }
  }

  /** Once a stage holds a response that is not a WrappedStageException, no
      later event changes it. */
  lemma {:induction false} UnwrappedIsFinal(cs: seq<Contribution>, more: seq<Contribution>, stage: string)
    requires stage in Fold(cs).responseMap && !Wrapped(Fold(cs).responseMap[stage])
    ensures stage in Fold(cs + more).responseMap && Fold(cs + more).responseMap[stage] == Fold(cs).responseMap[stage]
  {
    if more == [] {
      assert cs + more == cs;
    } else {
      var n := |more| - 1;
      assert (cs + more)[..|cs + more| - 1] == cs + more[..n];
      assert (cs + more)[|cs + more| - 1] == more[n];
      UnwrappedIsFinal(cs, more[..n], stage);
    }
  }

  lemma {:induction false} StageResponsesWellFormed(cs: seq<Contribution>, stage: string, r: ErrorClassificationResponse)
    requires r in StageResponses(cs, stage)
    ensures r.stageName == Some(stage)
    ensures exists c :: c in cs && r == ResponseFor(c) && !Stageless(c)
  {
    var n := |cs| - 1;
    if r in StageResponses(cs[..n], stage) {
      StageResponsesWellFormed(cs[..n], stage, r);
      var c :| c in cs[..n] && r == ResponseFor(c) && !Stageless(c);
      assert c in cs;
    } else {
      assert r == ResponseFor(cs[n]);
    }
  }

  /** Every map entry is keyed by its own stage name, with category
      `<category>-'<stage>'`, and comes from a contribution. */
  lemma MapEntriesWellFormed(cs: seq<Contribution>, stage: string)
    requires stage in Fold(cs).responseMap
    ensures var r := Fold(cs).responseMap[stage];
      r.stageName == Some(stage) &&
      exists c :: c in cs && !Stageless(c) && r == ResponseFor(c) &&
        r.errorCategory == Some(StageCategory(c.mdc.errorCategory, stage))
  {
    MapHoldsPreferred(cs, stage);
    var rs := StageResponses(cs, stage);
    var r := Preferred(rs);
    assert r in rs;
    StageResponsesWellFormed(cs, stage, r);
  }

  /** Nothing in the map also sits in the set: map entries have a stage,
      set elements do not. */
  lemma MapAndSetDisjoint(cs: seq<Contribution>, stage: string)
    requires stage in Fold(cs).responseMap
    ensures Fold(cs).responseMap[stage] !in Fold(cs).responseSet
  {
    MapEntriesWellFormed(cs, stage);
    SetIsStagelessResponses(cs);
    var r := Fold(cs).responseMap[stage];
    var c :| c in cs && !Stageless(c) && r == ResponseFor(c) &&
      r.errorCategory == Some(StageCategory(c.mdc.errorCategory, stage));
    assert !IsNullOrEmpty(r.stageName);
    forall x | x in Fold(cs).responseSet ensures IsNullOrEmpty(x.stageName) {
      var i :| 0 <= i < |cs| && Stageless(cs[i]) && x == ResponseFor(cs[i]);
    }
  }

  /** Every reported response names a class that provides failure details. */
  lemma ResponsesComeFromProviders(events: seq<LogEvent>, lookup: ClassLookup, r: ErrorClassificationResponse)
    requires r in ClassifyEvents(events, lookup).responseSet || r in ClassifyEvents(events, lookup).responseMap.Values
    ensures IsFailureDetailsProviderInstance(r.throwableClassName, lookup)
  {
    var cs := Contributions(events, lookup);
    if r in Fold(cs).responseSet {
      SetIsStagelessResponses(cs);
      var i :| 0 <= i < |cs| && Stageless(cs[i]) && r == ResponseFor(cs[i]);
      ContributionsExactly(events, lookup, cs[i]);
    } else {
      var stage :| stage in Fold(cs).responseMap && Fold(cs).responseMap[stage] == r;
      MapEntriesWellFormed(cs, stage);
      var c :| c in cs && !Stageless(c) && r == ResponseFor(c);
      ContributionsExactly(events, lookup, c);
    }
  }

  /** An illustration of `MapHoldsPreferred` and `UnwrappedIsFinal` on three
      events of one stage: a WrappedStageException reported first gives way
      to a later provider exception of that stage, which then stays. */
  lemma WrappedGivesWay(m1: Mdc, wrapped: ThrowableProxy, m2: Mdc, other: ThrowableProxy, m3: Mdc, third: ThrowableProxy)
    requires m1.failedStage == m2.failedStage == m3.failedStage == Some("s")
    requires wrapped.className == WRAPPED_STAGE_EXCEPTION && other.className != WRAPPED_STAGE_EXCEPTION
    ensures var cs := [Contribution(m1, wrapped), Contribution(m2, other), Contribution(m3, third)];
      Fold(cs).responseMap == map["s" := ResponseFor(Contribution(m2, other))] && Fold(cs).responseSet == {}
  {
    var c1, c2, c3 := Contribution(m1, wrapped), Contribution(m2, other), Contribution(m3, third);
    var cs := [c1, c2, c3];
    assert [c1][..0] == [];
    assert Fold([c1]).responseMap == map["s" := ResponseFor(c1)];
    assert [c1, c2][..1] == [c1];
    assert Fold([c1, c2]).responseMap == map["s" := ResponseFor(c2)];
    assert cs[..2] == [c1, c2];
  }
}
