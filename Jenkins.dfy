/** The Jenkins client: trigger the project's job and wait for it, and
    fetch a good build's first artifact into a clean directory. The
    Jenkins server is an oracle answering the k-th call; the calls made,
    the sleeps among them, are recorded in order. */
module Jenkins {
  import opened Wrappers
  import opened Text
  import opened Files

  /** The `jenkins` configuration section; `branch` is `None` unless set. */
  datatype Settings = Settings(url: string, user: string, password: string, project: string, branch: Option<string>)

  /** A build as `job.get_build` or `job.get_last_build` return it, or the
      `KeyError` of a build Jenkins does not know (yet). `localTime` is the
      build's timestamp already shown as `dd.mm.YYYY HH:MM` in local time. */
  datatype Lookup =
    | NoSuchBuild
    | Build(number: nat, running: bool, good: bool, localTime: string, artifacts: seq<Artifact>)

  /** What saving an artifact leaves in the target file (`None`: nothing,
      the download broke before writing). */
  datatype Artifact = Artifact(saved: Option<string>)

  /** The calls made to Jenkins, and the waits. `BuildJob`'s parameter is
      the value of the `Version` parameter, `None` for no parameters. */
  datatype JCall =
    | NextNumber
    | BuildJob(project: string, version: Option<string>)
    | BuildQuery(number: nat)   // job.get_build(number)
    | LastBuild
    | Sleep(seconds: nat)

  /** The server's answer to a call: the next build number for `NextNumber`,
      the build for `BuildQuery` and `LastBuild`. */
  datatype Reply = Reply(number: nat, lookup: Lookup)

  datatype JError =
    | BuildMissing   // the KeyError of an unknown build
    | BuildFailed    // build_project: the triggered build is not good
    | NotSuccess     // get_build: the chosen build is not good
    | NoDirectory    // rmtree of a directory that does not exist
    | NotZip         // the saved artifact is not a zip archive

  /** The job's parameters: `{'Version': branch}` when a branch is set. */
  function Params(branch: Option<string>): (p: Option<string>)
    ensures p.Some? <==> IsSet(branch)
    ensures p.Some? ==> p.value == branch.value
  {
    if IsSet(branch) then Some(branch.value) else None
  }

  /** The poll loop stops on a build that exists and no longer runs. */
  predicate Finished(l: Lookup) {
    l.Build? && !l.running
  }

  const PollStep: nat := 15
  const PollLimit: nat := 600

  function PollMeasure(elapsed: nat): nat {
    if elapsed > PollLimit then 0 else PollLimit + 1 - elapsed
  }

  /** The calls of the poll loop of `build_project` for build `n`, made
      after `sent` with `elapsed` seconds waited so far. */
  function PollTrace(n: nat, server: nat -> Reply, sent: seq<JCall>, elapsed: nat): seq<JCall>
    decreases PollMeasure(elapsed)
  {
    if elapsed > PollLimit then sent
    else
      var now := sent + [BuildQuery(n)];
      if Finished(server(|sent|).lookup) then now
      else PollTrace(n, server, now + [Sleep(PollStep)], elapsed + PollStep)
  }

  /** How many probes the loop makes when every probe finds the build
      still running (or missing). */
  function Probes(elapsed: nat): nat
    decreases PollMeasure(elapsed)
  {
    if elapsed > PollLimit then 0 else 1 + Probes(elapsed + PollStep)
  }

  lemma {:induction false} ProbesCount(elapsed: nat)
    ensures Probes(elapsed) == if elapsed > PollLimit then 0 else 1 + (PollLimit - elapsed) / PollStep
    decreases PollMeasure(elapsed)
  {
    if elapsed <= PollLimit {
      ProbesCount(elapsed + PollStep);
    }
  }

  /** From a standing start the loop probes at most 41 times. */
  lemma AtMost41Probes()
    ensures Probes(0) == 41
  {
    ProbesCount(0);
  }

  /** `m` rounds of the loop that went on: a probe, then a wait. */
  function Rounds(n: nat, m: nat): (r: seq<JCall>)
    ensures |r| == 2 * m
  {
    if m == 0 then [] else [BuildQuery(n), Sleep(PollStep)] + Rounds(n, m - 1)
  }

  /** The probe of round `i` after `k` calls found the build missing or
      still running. */
  predicate WaitedAt(server: nat -> Reply, k: nat, i: nat) {
    !Finished(server(k + 2 * i).lookup)
  }

  /** The shape of the poll: `m` rounds whose probes found the build
      missing (`KeyError`) or running, each followed by a 15-second wait;
      then either one probe that found the build finished, before the
      deadline, or nothing more once `Probes(elapsed)` rounds used up the
      time. */
  lemma {:induction false} PollShape(n: nat, server: nat -> Reply, sent: seq<JCall>, elapsed: nat)
    returns (m: nat, finished: bool)
    ensures PollTrace(n, server, sent, elapsed) == sent + Rounds(n, m) + (if finished then [BuildQuery(n)] else [])
    ensures forall i :: 0 <= i < m ==> WaitedAt(server, |sent|, i)
    ensures finished ==> m < Probes(elapsed) && Finished(server(|sent| + 2 * m).lookup)
    ensures !finished ==> m == Probes(elapsed)
    decreases PollMeasure(elapsed)
  {
    if elapsed > PollLimit {
      m, finished := 0, false;
      assert sent + [] + [] == sent;
    } else if Finished(server(|sent|).lookup) {
      m, finished := 0, true;
      assert sent + [] + [BuildQuery(n)] == sent + [BuildQuery(n)];
    } else {
      var round := [BuildQuery(n), Sleep(PollStep)];
      var next := sent + round;
      assert sent + [BuildQuery(n)] + [Sleep(PollStep)] == next;
      var m', f := PollShape(n, server, next, elapsed + PollStep);
      m, finished := m' + 1, f;
      var tail := if f then [BuildQuery(n)] else [];
      calc {
        sent + Rounds(n, m) + tail;
        sent + (round + Rounds(n, m')) + tail;
        { assert sent + (round + Rounds(n, m')) == next + Rounds(n, m'); }
        next + Rounds(n, m') + tail;
      }
      forall i | 0 <= i < m
        ensures WaitedAt(server, |sent|, i)
      {
        if i > 0 {
          assert WaitedAt(server, |next|, i - 1);
        }
      }
      if f {
        assert |sent| + 2 * m == |next| + 2 * m';
      }
    }
  }

  /** The calls of `build_project` and its result. */
  datatype BuildRun = BuildRun(calls: seq<JCall>, result: Result<nat, JError>)

  /** `build_project`: read the next build number, trigger the job, poll,
      then look the build up once more and require it to be good. */
  function BuildSpec(settings: Settings, server: nat -> Reply, sent: seq<JCall>): BuildRun {
    var n := server(|sent|).number;
    var started := sent + [NextNumber, BuildJob(settings.project, Params(settings.branch))];
    var polled := PollTrace(n, server, started, 0);
    var last := server(|polled|).lookup;
    var calls := polled + [BuildQuery(n)];
    if last.NoSuchBuild? then BuildRun(calls, Err(BuildMissing))
    else if !last.good then BuildRun(calls, Err(BuildFailed))
    else BuildRun(calls, Ok(n))
  }

  /** The number returned is the one read before the job was triggered;
      the job is triggered with the branch as its `Version` parameter iff
      a branch is set; at most 41 probes and 41 waits follow; the result
      is the lookup made after the loop, which must find a good build even
      when the loop ended on the deadline. */
  lemma BuildProjectOrder(settings: Settings, server: nat -> Reply, sent: seq<JCall>)
    ensures var r := BuildSpec(settings, server, sent);
            var k := |sent|;
            |sent| + 3 <= |r.calls| <= |sent| + 2 + 2 * 41 + 1 &&
            r.calls[..k] == sent && r.calls[k] == NextNumber &&
            r.calls[k + 1] == BuildJob(settings.project, Params(settings.branch)) &&
            r.calls[|r.calls| - 1] == BuildQuery(server(k).number)
    ensures var r := BuildSpec(settings, server, sent);
            var last := server(|r.calls| - 1).lookup;
            (r.result.Ok? <==> last.Build? && last.good) &&
            (r.result.Ok? ==> r.result.value == server(|sent|).number) &&
            (r.result.Err? ==> r.result.error == if last.NoSuchBuild? then BuildMissing else BuildFailed)
  {
    var k := |sent|;
    var n := server(k).number;
    var started := sent + [NextNumber, BuildJob(settings.project, Params(settings.branch))];
    var m, f := PollShape(n, server, started, 0);
    AtMost41Probes();
    var polled := PollTrace(n, server, started, 0);
    var calls := polled + [BuildQuery(n)];
    assert calls == started + (Rounds(n, m) + (if f then [BuildQuery(n)] else []) + [BuildQuery(n)]);
    assert calls[..k] == sent && calls[k] == NextNumber && calls[k + 1] == BuildJob(settings.project, Params(settings.branch));
  }

  // ---------------------------------------------------------------------
  // get_build

  /** The result string: the build's local time, ` build `, its number. */
  function Descriptor(localTime: string, n: nat): string {
    localTime + " build " + NatToString(n)
  }

  function Last(parts: seq<string>): string
    requires |parts| >= 1
  {
    parts[|parts| - 1]
  }

  lemma {:induction false} SplitBreaks(s: string, c: char)
    requires c in s
    ensures |Split(s, c)| >= 2
    decreases |s|
  {
    if s[0] != c {
      assert c in s[1..] by {
        var i :| 0 <= i < |s| && s[i] == c;
        assert s[1..][i - 1] == c;
      }
      SplitBreaks(s[1..], c);
    }
  }

  /** The last piece of a split is the text after the last separator. */
  lemma {:induction false} SplitLast(a: string, t: string, c: char)
    requires c !in t
    ensures Last(Split(a + [c] + t, c)) == t
    decreases |a|
  {
    if a == [] {
      assert a + [c] + t == [c] + t;
      assert ([c] + t)[1..] == t;
      SplitPrefix(t, "", c);
      assert t + "" == t;
    } else {
      var s := a + [c] + t;
      assert s[1..] == a[1..] + [c] + t;
      SplitLast(a[1..], t, c);
      assert c in s[1..] by {
        assert s[1..][|a| - 1] == c;
      }
      SplitBreaks(s[1..], c);
    }
  }

  /** The descriptor starts with the local time and ends with the build
      number, which reads back from its last space-separated word. */
  lemma DescriptorReadsBack(localTime: string, n: nat)
    ensures Descriptor(localTime, n)[..|localTime|] == localTime
    ensures ParseInt(Last(Split(Descriptor(localTime, n), ' '))) == Some(n)
  {
    var d := Descriptor(localTime, n);
    var digits := NatToString(n);
    assert d == (localTime + " build") + [' '] + digits;
    assert forall i :: 0 <= i < |digits| ==> digits[i] != ' ';
    SplitLast(localTime + " build", digits, ' ');
    ParseIntOfNatToString(n);
  }

  /** `shutil.rmtree(dir)` followed by `os.mkdir(dir)`. */
  function Clean(fs: Fs, dir: string): (r: Fs)
    ensures dir in r.dirs
    ensures forall p :: p in r.files <==> p in fs.files && !Under(p, dir)
    ensures forall p :: p in r.files ==> r.files[p] == fs.files[p]
  {
    MkDir(RemoveTree(fs, dir), dir)
  }

  /** `zipfile.ZipFile(war).extractall(dir)`: each member, a relative path
      with its text, written below `dir`. */
  function Extract(fs: Fs, dir: string, members: seq<(string, string)>): Fs
    decreases |members|
  {
    if members == [] then fs
    else Extract(WriteFile(fs, JoinPath(dir, members[0].0), members[0].1), dir, members[1..])
  }

  /** What `get_build` leaves: the files and its result (`None` for a
      build without artifacts). */
  datatype Fetch = Fetch(fs: Fs, result: Result<Option<string>, JError>)

  /** `get_build` once the build `l` is looked up: `n` is the build's
      number, `unzip` reads a zip archive's members (`None`: not a zip). */
  function FetchFrom(l: Lookup, n: nat, fs: Fs, dir: string, unzip: string -> Option<seq<(string, string)>>): Fetch {
    if l.NoSuchBuild? then Fetch(fs, Err(BuildMissing))
    else if !l.good then Fetch(fs, Err(NotSuccess))
    else if !IsDir(fs, dir) then Fetch(fs, Err(NoDirectory))
    else
      var clean := Clean(fs, dir);
      if l.artifacts == [] then Fetch(clean, Ok(None))
      else
        var war := JoinPath(dir, "last_build.war");
        var a := l.artifacts[0];
        var saved := if a.saved.Some? then WriteFile(clean, war, a.saved.value) else clean;
        var members := if a.saved.Some? then unzip(a.saved.value) else None;
        if members.None? then Fetch(saved, Err(NotZip))
        else Fetch(Extract(saved, dir, members.value), Ok(Some(Descriptor(l.localTime, n))))
  }

  /** A build that is missing or not good fails before the directory is
      touched; a good one empties the directory first; the descriptor is
      returned after a zip artifact was unpacked. */
  lemma FetchChecksBeforeTouching(l: Lookup, n: nat, fs: Fs, dir: string, unzip: string -> Option<seq<(string, string)>>)
    ensures var f := FetchFrom(l, n, fs, dir, unzip);
            (l.NoSuchBuild? || !l.good) ==> f.fs == fs && f.result.Err?
    ensures var f := FetchFrom(l, n, fs, dir, unzip);
            l.Build? && l.good && IsDir(fs, dir) && l.artifacts == [] ==> f == Fetch(Clean(fs, dir), Ok(None))
    ensures var f := FetchFrom(l, n, fs, dir, unzip);
            f.result.Ok? && f.result.value.Some? ==>
              l.Build? && l.good && |l.artifacts| >= 1 && l.artifacts[0].saved.Some? &&
              unzip(l.artifacts[0].saved.value).Some? && f.result.value.value == Descriptor(l.localTime, n)
    ensures var f := FetchFrom(l, n, fs, dir, unzip);
            l.Build? && l.good && IsDir(fs, dir) && |l.artifacts| >= 1 ==>
              (f.result.Err? <==> (l.artifacts[0].saved.None? || unzip(l.artifacts[0].saved.value).None?))
  {
  }

  /** Only the first artifact matters. */
  lemma FirstArtifactOnly(l: Lookup, n: nat, fs: Fs, dir: string, unzip: string -> Option<seq<(string, string)>>)
    requires l.Build? && |l.artifacts| >= 1
    ensures FetchFrom(l, n, fs, dir, unzip) == FetchFrom(l.(artifacts := l.artifacts[..1]), n, fs, dir, unzip)
  {
  }

  /** The calls of `get_build` and what it leaves. */
  datatype FetchRun = FetchRun(calls: seq<JCall>, fetch: Fetch)

  /** `get_build(dir, build_number)`: a given (non-zero) number is looked up,
      otherwise the last build and its number. */
  function FetchSpec(server: nat -> Reply, sent: seq<JCall>, fs: Fs, dir: string, number: Option<nat>,
                     unzip: string -> Option<seq<(string, string)>>): FetchRun
  {
    var given := number.Some? && number.value != 0;
    var l := server(|sent|).lookup;
    var n := if given then number.value else if l.Build? then l.number else 0;
    FetchRun(sent + [if given then BuildQuery(number.value) else LastBuild], FetchFrom(l, n, fs, dir, unzip))
  }

  /** The build fetched is the one asked for, or the last one when none
      (or build 0) is given, and the descriptor names its number. */
  lemma FetchNamesBuild(server: nat -> Reply, sent: seq<JCall>, fs: Fs, dir: string, number: Option<nat>,
                        unzip: string -> Option<seq<(string, string)>>)
    ensures var r := FetchSpec(server, sent, fs, dir, number, unzip);
            var l := server(|sent|).lookup;
            r.calls == sent + [if number.Some? && number.value != 0 then BuildQuery(number.value) else LastBuild] &&
            (r.fetch.result.Ok? && r.fetch.result.value.Some? ==>
               l.Build? &&
               r.fetch.result.value.value ==
                 Descriptor(l.localTime, if number.Some? && number.value != 0 then number.value else l.number))
  {
  }

  class Jenkins {
    const settings: Settings
    /** Answers of the Jenkins server, by call position. */
    const server: nat -> Reply
    /** Recognises a zip archive and lists its members. */
    const unzip: string -> Option<seq<(string, string)>>
    /** Every call made so far, in order. */
    var issued: seq<JCall>
    /** The local files. */
    var fs: Fs

    /** `Jenkins.__init__`: the settings are copied. */
    constructor (settings: Settings, server: nat -> Reply, unzip: string -> Option<seq<(string, string)>>, fs: Fs)
      ensures this.settings == settings && this.server == server && this.unzip == unzip
      ensures issued == [] && this.fs == fs
    {
      this.settings := settings;
      this.server := server;
      this.unzip := unzip;
      issued := [];
      this.fs := fs;
    }

    /** `build_project`. */
    method BuildProject() returns (r: Result<nat, JError>)
      modifies this
      ensures fs == old(fs)
      ensures BuildRun(issued, r) == BuildSpec(settings, server, old(issued))
    {
      var params := if IsSet(settings.branch) then Some(settings.branch.value) else None;
      var n := server(|issued|).number;
      issued := issued + [NextNumber];
      issued := issued + [BuildJob(settings.project, params)];
      ghost var started := issued;
      assert started == old(issued) + [NextNumber, BuildJob(settings.project, Params(settings.branch))];
      var elapsed := 0;
      while true
        invariant fs == old(fs)
        invariant PollTrace(n, server, started, 0) == PollTrace(n, server, issued, elapsed)
        decreases PollMeasure(elapsed)
      {
        if elapsed > 600 {
          assert PollTrace(n, server, started, 0) == issued;
          break;
        }
        var l := server(|issued|).lookup;
        issued := issued + [BuildQuery(n)];
        if l.Build? && !l.running {
          assert PollTrace(n, server, started, 0) == issued;
          break;
        }
        issued := issued + [Sleep(15)];
        elapsed := elapsed + 15;
      }
      var last := server(|issued|).lookup;
      issued := issued + [BuildQuery(n)];
      if last.NoSuchBuild? {
        return Err(BuildMissing);
      }
      if !last.good {
        return Err(BuildFailed);
      }
      r := Ok(n);
    }

    /** `get_build(dir, build_number)`. */
    method GetBuild(dir: string, number: Option<nat>) returns (r: Result<Option<string>, JError>)
      modifies this
      ensures FetchRun(issued, Fetch(fs, r)) == FetchSpec(server, old(issued), old(fs), dir, number, unzip)
    {
      var l := server(|issued|).lookup;
      var n: nat;
      if number.Some? && number.value != 0 {
        issued := issued + [BuildQuery(number.value)];
        n := number.value;
      } else {
        issued := issued + [LastBuild];
        n := if l.Build? then l.number else 0;
      }
      if l.NoSuchBuild? {
        return Err(BuildMissing);
      }
      if !l.good {
        return Err(NotSuccess);
      }
      if dir !in fs.dirs {
        return Err(NoDirectory);
      }
      fs := Clean(fs, dir);
      var war := JoinPath(dir, "last_build.war");
      var arts := l.artifacts;
      ghost var clean := fs;
      ghost var calls := issued;
      r := Ok(None);
      var i := 0;
      // the body returns or unpacks the first artifact: no second round
      while i < |arts| && r == Ok(None)
        invariant i <= |arts| && issued == calls
        invariant i == 0 ==> r == Ok(None) && fs == clean
        invariant i != 0 ==> i == 1 && r == Ok(Some(Descriptor(l.localTime, n))) &&
                             arts[0].saved.Some? && unzip(arts[0].saved.value).Some? &&
                             fs == Extract(WriteFile(clean, war, arts[0].saved.value), dir, unzip(arts[0].saved.value).value)
      {
        var a := arts[i];
        if a.saved.Some? {
          fs := WriteFile(fs, war, a.saved.value);
        }
        var members := if a.saved.Some? then unzip(a.saved.value) else None;
        if members.None? {
          return Err(NotZip);
        }
        fs := Extract(fs, dir, members.value);
        r := Ok(Some(Descriptor(l.localTime, n)));
        i := i + 1;
      }
    }
  }
}
