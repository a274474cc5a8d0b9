/** The engagement tracking of the mixed-marketing-modeling project page
    (app/projects/mixed-marketing-modeling/page.js): a page view on mount,
    scroll milestones that are each reported once per page load, the maximum
    scroll depth, the exit beacon and the call-to-action clicks.

    The page is a class holding the Browser it runs in; its handlers call
    Browser.TrackEvent, so what they send is stated through TrackEventSpec.
    The scroll depth is an integer input, and `Date.now()` and the random
    session suffix are parameters. */
module MmmPage {
  import opened Common
  import opened TrackEvent

  /** `const milestones = [25, 50, 75, 100]`. */
  const Milestones: seq<nat> := [25, 50, 75, 100]

  /** The project id the engagement events carry. */
  const ProjectId: string := "proj_marketing_mmm"
  /** The project id of the mount-time page view, which differs from ProjectId. */
  const PageViewProjectId: string := "proj_001"

  predicate StrictlyIncreasing(s: seq<nat>)
  {
    forall i, j :: 0 <= i < j < |s| ==> s[i] < s[j]
  }

  predicate NoDuplicates(s: seq<nat>)
  {
    forall i, j :: 0 <= i < j < |s| ==> s[i] != s[j]
  }

  predicate IsMilestone(m: nat) { m in Milestones }

  /** The thresholds are listed in ascending order. */
  lemma MilestonesIncreasing()
    ensures StrictlyIncreasing(Milestones)
  {
  }

  // ---------------------------------------------------------------------------
  // Scroll milestones

  /** The milestones of ms, in order, that a scroll to `depth` reports when
      those in `viewed` have been reported already. */
  function FiredAmong(ms: seq<nat>, viewed: set<nat>, depth: int): seq<nat>
  {
    if ms == [] then []
    else
      var m := ms[|ms| - 1];
      FiredAmong(ms[..|ms| - 1], viewed, depth) + if depth >= m && m !in viewed then [m] else []
  }

  lemma {:induction false} FiredAmongMembers(ms: seq<nat>, viewed: set<nat>, depth: int)
    ensures forall m: nat :: m in FiredAmong(ms, viewed, depth) <==> m in ms && m <= depth && m !in viewed
  {
    if ms != [] {
      FiredAmongMembers(ms[..|ms| - 1], viewed, depth);
      assert ms == ms[..|ms| - 1] + [ms[|ms| - 1]];
    }
  }

  lemma {:induction false} FiredAmongIncreasing(ms: seq<nat>, viewed: set<nat>, depth: int)
    requires StrictlyIncreasing(ms)
    ensures StrictlyIncreasing(FiredAmong(ms, viewed, depth))
  {
    if ms != [] {
      var front := ms[..|ms| - 1];
      FiredAmongIncreasing(front, viewed, depth);
      FiredAmongMembers(front, viewed, depth);
      var f := FiredAmong(front, viewed, depth);
      forall k | 0 <= k < |f| ensures f[k] < ms[|ms| - 1] {
        assert f[k] in front;
      }
    }
  }

  /** The milestones one scroll event reports: exactly the thresholds at or
      below the depth that were not reported before, in ascending order. */
  function Fired(viewed: set<nat>, depth: int): (r: seq<nat>)
    ensures forall m: nat :: m in r <==> IsMilestone(m) && m <= depth && m !in viewed
    ensures StrictlyIncreasing(r)
  {
    MilestonesIncreasing();
    FiredAmongMembers(Milestones, viewed, depth);
    FiredAmongIncreasing(Milestones, viewed, depth);
    FiredAmong(Milestones, viewed, depth)
  }

  /** The thresholds among ms that a depth has reached. */
  function ReachedAmong(ms: seq<nat>, depth: int): set<nat>
  {
    set m | m in ms && m <= depth
  }

  /** The thresholds a depth has reached. */
  function Reached(depth: int): set<nat>
  {
    ReachedAmong(Milestones, depth)
  }

  /** `{projectId, milestone: `${m}%`, scrollDepth}`. */
  function MilestoneMetadata(m: nat, depth: int): Metadata
  {
    map["projectId" := Str(ProjectId), "milestone" := Str(NatToString(m) + "%"), "scrollDepth" := Int(depth)]
  }

  /** The trackEvent call that reports milestone m. */
  function MilestoneCall(m: nat, depth: int): TrackCall
  {
    TrackCall("scroll_milestone", Some(MilestoneMetadata(m, depth)))
  }

  /** The trackEvent calls for a list of reported milestones. */
  function MilestoneCalls(fired: seq<nat>, depth: int): (calls: seq<TrackCall>)
    ensures |calls| == |fired|
  {
    seq(|fired|, i requires 0 <= i < |fired| => MilestoneCall(fired[i], depth))
  }

  /** The milestones reported over a whole page load, one scroll event after
      another, starting from the reported set `viewed`. */
  function ScrollRun(viewed: set<nat>, depths: seq<int>): seq<nat>
    decreases |depths|
  {
    if depths == [] then []
    else Fired(viewed, depths[0]) + ScrollRun(viewed + Reached(depths[0]), depths[1..])
  }

  /** Over any sequence of scroll events no milestone is reported twice, none
      that was reported before is reported again, and only the four thresholds
      are ever reported. */
  lemma {:induction false} ScrollRunReportsOnce(viewed: set<nat>, depths: seq<int>)
    ensures NoDuplicates(ScrollRun(viewed, depths))
    ensures forall m :: m in ScrollRun(viewed, depths) ==> IsMilestone(m) && m !in viewed
    decreases |depths|
  {
    if depths != [] {
      var head := Fired(viewed, depths[0]);
      var viewed' := viewed + Reached(depths[0]);
      var tail := ScrollRun(viewed', depths[1..]);
      ScrollRunReportsOnce(viewed', depths[1..]);
      var run := head + tail;
      forall i, j | 0 <= i < j < |run| ensures run[i] != run[j] {
        if j < |head| {
        } else if i < |head| {
          assert run[i] in head && run[i] in Reached(depths[0]);
          assert run[j] in tail;
        } else {
          assert run[i] == tail[i - |head|] && run[j] == tail[j - |head|];
        }
      }
    }
  }

  /** A milestone is reported during a page load exactly when it had not been
      reported before and some scroll event reached it. */
  lemma {:induction false} ScrollRunReportsReached(viewed: set<nat>, depths: seq<int>, m: nat)
    ensures m in ScrollRun(viewed, depths) <==>
      IsMilestone(m) && m !in viewed && exists k :: 0 <= k < |depths| && m <= depths[k]
    decreases |depths|
  {
    if depths != [] {
      var viewed' := viewed + Reached(depths[0]);
      ScrollRunReportsReached(viewed', depths[1..], m);
      if IsMilestone(m) && m !in viewed && exists k :: 0 <= k < |depths| && m <= depths[k] {
        var k :| 0 <= k < |depths| && m <= depths[k];
        if m !in Fired(viewed, depths[0]) {
          assert k != 0;
          assert m <= depths[1..][k - 1];
        }
      }
      if m in ScrollRun(viewed', depths[1..]) {
        var k :| 0 <= k < |depths[1..]| && m <= depths[1..][k];
        assert m <= depths[k + 1];
      }
    }
  }

  /** The maximum scroll depth after a sequence of scroll events. */
  function MaxAfter(start: int, depths: seq<int>): int
    decreases |depths|
  {
    if depths == [] then start
    else MaxAfter(if depths[0] > start then depths[0] else start, depths[1..])
  }

  /** The recorded maximum never decreases and ends as the largest of the
      starting value and every depth seen. */
  lemma {:induction false} MaxAfterIsMaximum(start: int, depths: seq<int>)
    ensures MaxAfter(start, depths) >= start
    ensures forall k :: 0 <= k < |depths| ==> MaxAfter(start, depths) >= depths[k]
    ensures MaxAfter(start, depths) == start || exists k :: 0 <= k < |depths| && MaxAfter(start, depths) == depths[k]
    decreases |depths|
  {
    if depths != [] {
      var next := if depths[0] > start then depths[0] else start;
      MaxAfterIsMaximum(next, depths[1..]);
      forall k | 1 <= k < |depths| ensures MaxAfter(start, depths) >= depths[k] {
        assert depths[k] == depths[1..][k - 1];
      }
      if MaxAfter(start, depths) != next {
        var k :| 0 <= k < |depths[1..]| && MaxAfter(next, depths[1..]) == depths[1..][k];
        assert MaxAfter(start, depths) == depths[k + 1];
      }
    }
  }

  // ---------------------------------------------------------------------------
  // Exit beacon and call-to-action

  /** `Math.round(ms / 1000)`: the nearest whole second, halves rounded up. */
  function RoundSeconds(ms: int): (s: int)
    ensures s * 1000 - 500 <= ms < s * 1000 + 500
  {
    (ms + 500) / 1000
  }

  /** `sessionStorage.getItem('analytics_session_id')`: null when absent. */
  function StoredSessionId(storage: map<string, string>): Option<string>
  {
    if SessionKey in storage then Some(storage[SessionKey]) else None
  }

  /** The payload of the exit beacon. */
  function ExitEnvelope(path: string, storage: map<string, string>, timeOnPage: int, maxDepth: int): (e: Envelope)
    ensures e.eventType == "page_exit" && e.page == path
    ensures e.metadata.Keys == {"projectId", "timeOnPage", "maxScrollDepth"}
  {
    Envelope("page_exit", path, StoredSessionId(storage),
      map["projectId" := Str(ProjectId), "timeOnPage" := Int(timeOnPage), "maxScrollDepth" := Int(maxDepth)])
  }

  /** The exit beacon reads the key trackEvent writes: after any tracked event
      in a working browser it carries the session id of that event. */
  lemma ExitBeaconMatchesTrackedSession(env: Env, st: ClientState, call: TrackCall, nowMs: nat, suffix: string,
                                        timeOnPage: int, maxDepth: int)
    requires env.hasWindow && env.storageUsable
    ensures var st' := TrackEventSpec(env, st, call, nowMs, suffix);
            ExitEnvelope(env.pathname, st'.storage, timeOnPage, maxDepth).sessionId == st'.outbox[|st'.outbox| - 1].sessionId
  {
    var st' := TrackEventSpec(env, st, call, nowMs, suffix);
    assert |st'.outbox| == |st.outbox| + 1;
  }

  /** The metadata of a call-to-action click. */
  function CtaMetadata(ctaName: string, ctaUrl: string, timeBeforeClick: int): Metadata
  {
    map["projectId" := Str(ProjectId), "ctaName" := Str(ctaName), "ctaUrl" := Str(ctaUrl),
        "timeBeforeClick" := Int(timeBeforeClick)]
  }

  /** The metadata of the page view sent on mount. */
  const PageViewMetadata: Metadata :=
    map["projectId" := Str(PageViewProjectId),
        "projectTitle" := Str("Marketing Mix Modeling & Channel Attribution"),
        "page" := Str("project-detail")]

  /** One more threshold examined by the milestone loop. */
  lemma FiredAmongStep(ms: seq<nat>, i: nat, viewed: set<nat>, depth: int)
    requires i < |ms|
    ensures FiredAmong(ms[..i + 1], viewed, depth)
         == FiredAmong(ms[..i], viewed, depth) + if depth >= ms[i] && ms[i] !in viewed then [ms[i]] else []
  {
    assert ms[..i + 1][..i] == ms[..i];
  }

  lemma ReachedAmongStep(ms: seq<nat>, i: nat, depth: int)
    requires i < |ms| && StrictlyIncreasing(ms)
    ensures ms[i] !in ReachedAmong(ms[..i], depth)
    ensures ReachedAmong(ms[..i + 1], depth) == ReachedAmong(ms[..i], depth) + if ms[i] <= depth then {ms[i]} else {}
  {
    assert ms[..i + 1] == ms[..i] + [ms[i]];
  }

  lemma MilestoneCallsStep(fired: seq<nat>, m: nat, depth: int)
    ensures MilestoneCalls(fired + [m], depth)
         == MilestoneCalls(fired, depth) + [MilestoneCall(m, depth)]
  {
  }

  lemma TrackAllStep(env: Env, st: ClientState, calls: seq<TrackCall>, c: TrackCall, nowMs: nat, suffix: string)
    ensures TrackAll(env, st, calls + [c], nowMs, suffix) == TrackEventSpec(env, TrackAll(env, st, calls, nowMs, suffix), c, nowMs, suffix)
  {
    assert (calls + [c])[..|calls|] == calls;
  }

  /** What one turn of the milestone loop adds, to the recorded set and to
      the calls made. */
  lemma MilestoneLoopStep(env: Env, st: ClientState, ms: seq<nat>, i: nat, viewed0: set<nat>, viewed: set<nat>,
                          depth: int, nowMs: nat, suffix: string)
    requires i < |ms| && StrictlyIncreasing(ms)
    requires viewed == viewed0 + ReachedAmong(ms[..i], depth)
    ensures depth >= ms[i] ==> viewed + {ms[i]} == viewed0 + ReachedAmong(ms[..i + 1], depth)
    ensures depth < ms[i] ==> viewed == viewed0 + ReachedAmong(ms[..i + 1], depth)
    ensures depth >= ms[i] && ms[i] !in viewed ==>
      TrackAll(env, st, MilestoneCalls(FiredAmong(ms[..i + 1], viewed0, depth), depth), nowMs, suffix)
      == TrackEventSpec(env, TrackAll(env, st, MilestoneCalls(FiredAmong(ms[..i], viewed0, depth), depth), nowMs, suffix),
                        MilestoneCall(ms[i], depth), nowMs, suffix)
    ensures !(depth >= ms[i] && ms[i] !in viewed) ==>
      TrackAll(env, st, MilestoneCalls(FiredAmong(ms[..i + 1], viewed0, depth), depth), nowMs, suffix)
      == TrackAll(env, st, MilestoneCalls(FiredAmong(ms[..i], viewed0, depth), depth), nowMs, suffix)
  {
    var before := FiredAmong(ms[..i], viewed0, depth);
    ReachedAmongStep(ms, i, depth);
    FiredAmongStep(ms, i, viewed0, depth);
    if depth >= ms[i] && ms[i] !in viewed {
      MilestoneCallsStep(before, ms[i], depth);
      TrackAllStep(env, st, MilestoneCalls(before, depth), MilestoneCall(ms[i], depth), nowMs, suffix);
    } else {
      assert before + [] == before;
    }
  }

  /** One load of the project page. */
  class ProjectPage {
    const browser: Browser
    /** `entryTime.current`: Date.now() at the first render. */
    const entryTime: int
    var maxScrollDepth: int
    /** `viewedSections.current`: the milestones reported so far. */
    var viewedSections: set<nat>
    /** The payloads handed to navigator.sendBeacon. */
    ghost var beacons: seq<Envelope>

    ghost predicate Valid()
      reads this
    {
      forall m :: m in viewedSections ==> IsMilestone(m)
    }

    constructor (browser: Browser, entryTime: int)
      ensures Valid()
      ensures this.browser == browser && this.entryTime == entryTime
      ensures maxScrollDepth == 0 && viewedSections == {} && beacons == []
    {
      this.browser := browser;
      this.entryTime := entryTime;
      maxScrollDepth := 0;
      viewedSections := {};
      beacons := [];
    }

    /** The mount effect: one page view with the page's own project id. */
    method Mount(nowMs: nat, suffix: string)
      requires ValidSuffix(suffix)
      modifies browser`sessionStorage, browser`outbox, browser`errorLog
      ensures browser.State() == TrackEventSpec(browser.Context(), old(browser.State()),
                TrackCall("page_view", Some(PageViewMetadata)), nowMs, suffix)
    {
      browser.TrackEvent("page_view", Some(PageViewMetadata), nowMs, suffix);
    }

    /** handleScroll, with the scroll depth as input: raise the maximum if the
        depth is strictly greater, then report each milestone reached for the
        first time, in ascending order, recording it before reporting it. */
    method HandleScroll(depth: int, nowMs: nat, suffix: string)
      requires Valid() && ValidSuffix(suffix)
      modifies this`maxScrollDepth, this`viewedSections, browser`sessionStorage, browser`outbox, browser`errorLog
      ensures Valid()
      ensures maxScrollDepth == if depth > old(maxScrollDepth) then depth else old(maxScrollDepth)
      ensures viewedSections == old(viewedSections) + Reached(depth)
      ensures browser.State() == TrackAll(browser.Context(), old(browser.State()),
                MilestoneCalls(Fired(old(viewedSections), depth), depth), nowMs, suffix)
    {
      if depth > maxScrollDepth {
        maxScrollDepth := depth;
      }
      ReportMilestones(depth, nowMs, suffix);
    }

    /** `milestones.forEach(...)`: every threshold in ascending order. */
    method ReportMilestones(depth: int, nowMs: nat, suffix: string)
      requires ValidSuffix(suffix)
      modifies this`viewedSections, browser`sessionStorage, browser`outbox, browser`errorLog
      ensures viewedSections == old(viewedSections) + ReachedAmong(Milestones, depth)
      ensures browser.State() == TrackAll(browser.Context(), old(browser.State()),
                MilestoneCalls(FiredAmong(Milestones, old(viewedSections), depth), depth), nowMs, suffix)
    {
      ghost var viewed0 := viewedSections;
      ghost var ctx := browser.Context();
      ghost var st0 := browser.State();
      MilestonesIncreasing();
      var milestones := Milestones;
      var i := 0;
      while i < |milestones|
        invariant 0 <= i <= |milestones|
        invariant viewedSections == viewed0 + ReachedAmong(milestones[..i], depth)
        invariant browser.State() == TrackAll(ctx, st0, MilestoneCalls(FiredAmong(milestones[..i], viewed0, depth), depth), nowMs, suffix)
      {
        MilestoneLoopStep(ctx, st0, milestones, i, viewed0, viewedSections, depth, nowMs, suffix);
        ReportMilestone(milestones[i], depth, nowMs, suffix);
        i := i + 1;
      }
      assert milestones[..i] == Milestones;
    }

    /** The forEach callback for one threshold m: record m and report it when
        the depth reaches it for the first time; otherwise do nothing. */
    method ReportMilestone(m: nat, depth: int, nowMs: nat, suffix: string)
      requires ValidSuffix(suffix)
      modifies this`viewedSections, browser`sessionStorage, browser`outbox, browser`errorLog
      ensures depth >= m ==> viewedSections == old(viewedSections) + {m}
      ensures depth < m ==> viewedSections == old(viewedSections)
      ensures depth >= m && m !in old(viewedSections) ==>
        browser.State() == TrackEventSpec(browser.Context(), old(browser.State()), MilestoneCall(m, depth), nowMs, suffix)
      ensures !(depth >= m && m !in old(viewedSections)) ==> browser.State() == old(browser.State())
    {
      if depth >= m && m !in viewedSections {
        viewedSections := viewedSections + {m};
        browser.TrackEvent("scroll_milestone", Some(MilestoneMetadata(m, depth)), nowMs, suffix);
      }
    }

    /** handleBeforeUnload: one beacon with the time on page and the maximum
        depth. Reading session storage throws when storage is unusable, and
        then nothing is sent. */
    method HandleBeforeUnload(nowMs: int)
      requires browser.hasWindow
      modifies this`beacons
      ensures beacons == old(beacons) +
        if browser.storageUsable
        then [ExitEnvelope(browser.pathname, browser.sessionStorage, RoundSeconds(nowMs - entryTime), maxScrollDepth)]
        else []
    {
      if !browser.storageUsable {
        return;
      }
      var timeOnPage := RoundSeconds(nowMs - entryTime);
      var eventData := ExitEnvelope(browser.pathname, browser.sessionStorage, timeOnPage, maxScrollDepth);
      beacons := beacons + [eventData];
    }

    /** handleCTAClick(ctaName, ctaUrl). */
    method HandleCtaClick(ctaName: string, ctaUrl: string, nowMs: nat, suffix: string)
      requires ValidSuffix(suffix)
      modifies browser`sessionStorage, browser`outbox, browser`errorLog
      ensures browser.State() == TrackEventSpec(browser.Context(), old(browser.State()),
                TrackCall("cta_click", Some(CtaMetadata(ctaName, ctaUrl, RoundSeconds(nowMs - entryTime)))), nowMs, suffix)
    {
      browser.TrackEvent("cta_click", Some(CtaMetadata(ctaName, ctaUrl, RoundSeconds(nowMs - entryTime))), nowMs, suffix);
    }
  }
}
