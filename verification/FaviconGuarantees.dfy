/** What callers of the favicon cache may rely on, over every interleaving of downloads. */
module FaviconGuarantees {
  import opened Wrappers
  import opened FaviconCache

  // --- Published files ---------------------------------------------------------------------------

  /** Whatever downloads overlap, fail or die: a file under a final name is one whole response within the limit. */
  lemma PublishedFilesAreComplete(steps: seq<Step>, name: string)
    ensures var s := Run(EMPTY, steps);
            name in s.dir && !IsTemp(name) ==> IsFinal(name) && s.dir[name] in s.served && |s.dir[name]| <= MAX_IMAGE_SIZE
  {
    RunSound(EMPTY, steps);
    var s := Run(EMPTY, steps);
    assert name in s.dir ==> FileOk(s.dir, s.served, name);
  }

  ghost function FinalFiles(dir: Dir): Dir {
    map name | name in dir && !IsTemp(name) :: dir[name]
  }

  /** A completed copy within the limit: the one thing that publishes. */
  predicate Publishes(s: State, step: Step) {
    step.Finish? && step.work in s.works && s.works[step.work].Writing?
    && s.works[step.work].copied == |Readable(s.works[step.work].body)| <= MAX_IMAGE_SIZE
  }

  /** Any other step, failures above all, leaves the final files exactly as they were. */
  lemma OnlySuccessPublishes(s: State, step: Step)
    requires Sound(s) && !Publishes(s, step)
    ensures FinalFiles(Apply(s, step).dir) == FinalFiles(s.dir)
  {
    var t := Apply(s, step);
    if step.Open? { assert IsTempOf(TempName(step.random, step.ext), step.random, step.ext) || t == s; }
    if !step.Call? && !step.Look? && !step.Die? && step.work in s.works { assert WorkOk(s.dir, s.served, s.works[step.work]); }
    assert forall name :: !IsTemp(name) ==> (name in t.dir <==> name in s.dir) && (name in s.dir ==> t.dir[name] == s.dir[name]);
  }

  // --- Temporary files -------------------------------------------------------------------------------

  predicate Writes(work: Work, name: string) {
    work.Writing? && work.temp == name
  }

  predicate HasWriter(s: State, name: string) {
    exists w :: w in s.works && Writes(s.works[w], name)
  }

  /** Every temporary file is being written by a save that is still under way. */
  ghost predicate Tended(s: State) {
    forall name :: name in s.dir && IsTemp(name) ==> HasWriter(s, name)
  }

  predicate DiesWriting(s: State, step: Step) {
    step.Die? && step.work in s.works && s.works[step.work].Writing?
  }

  ghost predicate NoneDiesWriting(s: State, steps: seq<Step>)
    decreases |steps|
  {
    steps != [] ==> !DiesWriting(s, steps[0]) && NoneDiesWriting(Apply(s, steps[0]), steps[1..])
  }

  /** A step leaves every temporary file but the one of its own download, and puts no other in the directory. */
  lemma StepTended(s: State, step: Step)
    requires Sound(s) && Tended(s) && !DiesWriting(s, step)
    ensures Tended(Apply(s, step))
  {
    var t := Apply(s, step);
    forall name | name in t.dir && IsTemp(name) ensures HasWriter(t, name) {
      TempTended(s, step, name);
    }
  }

  lemma TempTended(s: State, step: Step, name: string)
    requires Sound(s) && Tended(s) && !DiesWriting(s, step) && name in Apply(s, step).dir && IsTemp(name)
    ensures HasWriter(Apply(s, step), name)
  {
    var t, w := Apply(s, step), step.work;
    if Publishes(s, step) {
      assert WorkOk(s.dir, s.served, s.works[w]);
      FinalNotTemp(s.works[w].host, s.works[w].ext);
    }
    if name in s.dir {
      var v :| v in s.works && Writes(s.works[v], name);
      assert v in t.works && Writes(t.works[v], name);
    } else {
      assert w in t.works && Writes(t.works[w], name);
    }
  }

  lemma {:induction false} RunTended(s: State, steps: seq<Step>)
    requires Sound(s) && Tended(s) && NoneDiesWriting(s, steps)
    ensures Tended(Run(s, steps))
    decreases |steps|
  {
    if steps != [] {
      StepSound(s, steps[0]);
      StepTended(s, steps[0]);
      RunTended(Apply(s, steps[0]), steps[1..]);
    }
  }

  /**
   In every interleaving in which no process dies in the middle of a save, failures and oversized
   bodies included, a temporary file is there only while its save is: once all calls have returned, none is left.
   */
  lemma SavesCleanUp(steps: seq<Step>)
    requires NoneDiesWriting(EMPTY, steps)
    ensures var s := Run(EMPTY, steps);
            && (forall name :: name in s.dir && IsTemp(name) ==> HasWriter(s, name))
            && ((forall w :: w in s.works ==> s.works[w].Done?) ==> forall name :: name in s.dir ==> !IsTemp(name))
  {
    RunTended(EMPTY, steps);
  }

  ghost predicate Orphan(s: State, name: string) {
    name in s.dir && IsTemp(name) && !HasWriter(s, name)
  }

  lemma StaysOrphan(s: State, step: Step, name: string)
    requires Sound(s) && Orphan(s, name)
    ensures Orphan(Apply(s, step), name)
  {
    var t, w := Apply(s, step), step.work;
    assert w in s.works ==> !Writes(s.works[w], name);
    if Publishes(s, step) {
      assert WorkOk(s.dir, s.served, s.works[w]);
      FinalNotTemp(s.works[w].host, s.works[w].ext);
    }
    forall v | v in t.works ensures !Writes(t.works[v], name) {
      assert v in s.works ==> !Writes(s.works[v], name);
    }
  }

  lemma {:induction false} RunStaysOrphan(s: State, steps: seq<Step>, name: string)
    requires Sound(s) && Orphan(s, name)
    ensures Orphan(Run(s, steps), name)
    decreases |steps|
  {
    if steps != [] {
      StepSound(s, steps[0]);
      StaysOrphan(s, steps[0], name);
      RunStaysOrphan(Apply(s, steps[0]), steps[1..], name);
    }
  }

  /** And a process that does die there leaves its temporary file for good: nothing ever removes it. */
  lemma DeathLeavesTemp(s: State, w: nat, steps: seq<Step>)
    requires Sound(s) && DiesWriting(s, Die(w))
    ensures var t := Run(Apply(s, Die(w)), steps); s.works[w].temp in t.dir && IsTemp(s.works[w].temp)
  {
    var name, t := s.works[w].temp, Apply(s, Die(w));
    assert WorkOk(s.dir, s.served, s.works[w]);
    forall v | v in t.works ensures !Writes(t.works[v], name) {
      if t.works[v].Writing? { assert !SameTemp(s.works[v], s.works[w]); }
    }
    StepSound(s, Die(w));
    RunStaysOrphan(t, steps, name);
  }

  // --- Whose file a lookup returns ------------------------------------------------------------------

  lemma TempStemsAreShaped(name: string)
    ensures IsTemp(name) ==> TempShaped(Stem(name))
  {
    if IsTemp(name) {
      var random, ext :| IsTempOf(name, random, ext);
      TempStem(random, ext);
      assert IsTempOf(Stem(name) + ".tmp", random, ext);
    }
  }

  /** A lookup for a host that does not look like a temporary name returns a published file of that very host. */
  lemma LookupReturnsOwnFile(s: State, host: string)
    requires Sound(s) && !TempShaped(host) && StoredFavicon(s.dir, host).Some?
    ensures var name := StoredFavicon(s.dir, host).value;
            && !IsTemp(name) && s.dir[name] in s.served && |s.dir[name]| <= MAX_IMAGE_SIZE
            && exists ext :: IsExt(ext) && name == host + ext
  {
    var name := StoredFavicon(s.dir, host).value;
    assert FileOk(s.dir, s.served, name);
    TempStemsAreShaped(name);
    var owner, ext :| UsableHost(owner) && IsExt(ext) && name == owner + ext;
    StemInvertsNaming(owner, ext);
  }

  ghost predicate ReturnsTemp(steps: seq<Step>, host: string) {
    var s := Run(EMPTY, steps);
    Stored(s.dir, host) && IsTemp(StoredFavicon(s.dir, host).value)
  }

  /** Some lookup for a host can meet another download's temporary file if and only if the host is shaped like one. */
  lemma OnlyTempShapedHostsMeetTemps(host: string)
    ensures (exists steps :: ReturnsTemp(steps, host)) <==> TempShaped(host)
  {
    forall steps | ReturnsTemp(steps, host) ensures TempShaped(host) {
      RunSound(EMPTY, steps);
      if !TempShaped(host) { LookupReturnsOwnFile(Run(EMPTY, steps), host); }
    }
    if TempShaped(host) {
      var steps := MeetTemp(host);
      assert ReturnsTemp(steps, host);
    }
  }

  /** A download of another site is writing the file. */
  lemma MeetTemp(host: string) returns (steps: seq<Step>)
    requires TempShaped(host)
    ensures ReturnsTemp(steps, host)
  {
    var random, ext :| IsTempOf(host + ".tmp", random, ext);
    var temp := TempName(random, ext);
    TempStem(random, ext);
    assert host == random + ext by {
      assert (host + ".tmp")[..|host|] == host && (random + ext + ".tmp")[..|random + ext|] == random + ext;
    }
    steps := [Call(0, "x"), Look(0), Open(0, random, ext, [])];
    var s1 := Apply(EMPTY, steps[0]);
    assert UsableHost("x");
    var s2 := Apply(s1, steps[1]);
    assert !Stored(s1.dir, "x");
    var s3 := Apply(s2, steps[2]);
    assert s3.dir == map[temp := []];
    assert steps[1..] == [Look(0), Open(0, random, ext, [])] && steps[1..][1..] == [Open(0, random, ext, [])];
    assert steps[1..][1..][1..] == [];
    assert Run(s3, []) == s3 && Run(s2, steps[1..][1..]) == s3 && Run(s1, steps[1..]) == s3 && Run(EMPTY, steps) == s3;
    assert temp in s3.dir && Stem(temp) == host;
  }

  // --- Once stored, for good -------------------------------------------------------------------------

  predicate Downloads(work: Work, host: string) {
    (work.Fetching? || work.Writing?) && work.host == host
  }

  /** The host has one file and nobody is downloading it again. */
  ghost predicate Settled(s: State, host: string, name: string, content: Bytes) {
    && name in s.dir && s.dir[name] == content && !IsTemp(name) && Stem(name) == host
    && (forall other :: other in s.dir && Stem(other) == host ==> other == name)
    && (forall w :: w in s.works ==> !Downloads(s.works[w], host))
  }

  /** Nothing with the host's stem appears, its file stays, and no download of it begins. */
  lemma StaysSettled(s: State, t: State, host: string, name: string, content: Bytes)
    requires Settled(s, host, name, content)
    requires name in t.dir && t.dir[name] == content
    requires forall other :: other in t.dir && other !in s.dir ==> Stem(other) != host
    requires forall w :: w in t.works ==> !Downloads(t.works[w], host)
    ensures Settled(t, host, name, content)
  {
  }

  lemma OpenKeepsSettled(s: State, step: Step, host: string, name: string, content: Bytes)
    requires step.Open? && Settled(s, host, name, content) && !TempShaped(host)
    ensures Settled(Apply(s, step), host, name, content)
  {
    var t := Apply(s, step);
    if t != s {
      var temp := TempName(step.random, step.ext);
      assert IsTempOf(temp, step.random, step.ext);
      TempStemsAreShaped(temp);
      StaysSettled(s, t, host, name, content);
    }
  }

  lemma FinishKeepsSettled(s: State, w: nat, host: string, name: string, content: Bytes)
    requires Sound(s) && Settled(s, host, name, content) && Publishes(s, Finish(w))
    ensures Settled(Apply(s, Finish(w)), host, name, content)
  {
    var t, work := Apply(s, Finish(w)), s.works[w];
    assert WorkOk(s.dir, s.served, work) && !Downloads(work, host);
    StemInvertsNaming(work.host, work.ext);
    StaysSettled(s, t, host, name, content);
  }

  lemma GiveUpKeepsSettled(s: State, w: nat, host: string, name: string, content: Bytes)
    requires Sound(s) && Settled(s, host, name, content) && w in s.works
    ensures Settled(GiveUp(s, w), host, name, content)
  {
    assert WorkOk(s.dir, s.served, s.works[w]);
    StaysSettled(s, GiveUp(s, w), host, name, content);
  }

  lemma CopyKeepsSettled(s: State, step: Step, host: string, name: string, content: Bytes)
    requires Sound(s) && step.Copy? && Settled(s, host, name, content)
    ensures Settled(Apply(s, step), host, name, content)
  {
    if Apply(s, step) != s {
      assert WorkOk(s.dir, s.served, s.works[step.work]) && !Downloads(s.works[step.work], host);
      StaysSettled(s, Apply(s, step), host, name, content);
    }
  }

  lemma StepKeepsSettled(s: State, step: Step, host: string, name: string, content: Bytes)
    requires Sound(s) && Settled(s, host, name, content) && !TempShaped(host)
    ensures Settled(Apply(s, step), host, name, content)
  {
    match step
    case Open(_, _, _, _) => OpenKeepsSettled(s, step, host, name, content);
    case Copy(_, _) => CopyKeepsSettled(s, step, host, name, content);
    case Finish(w) =>
      if w in s.works && s.works[w].Writing? && s.works[w].copied == |Readable(s.works[w].body)| {
        if s.works[w].copied > MAX_IMAGE_SIZE {
          GiveUpKeepsSettled(s, w, host, name, content);
        } else {
          FinishKeepsSettled(s, w, host, name, content);
        }
      }
    case Fail(w) => if w in s.works { GiveUpKeepsSettled(s, w, host, name, content); }
    case _ =>
      assert Stored(s.dir, host);
      StaysSettled(s, Apply(s, step), host, name, content);
  }

  lemma {:induction false} RunKeepsSettled(s: State, steps: seq<Step>, host: string, name: string, content: Bytes)
    requires Sound(s) && Settled(s, host, name, content) && !TempShaped(host)
    ensures Sound(Run(s, steps)) && Settled(Run(s, steps), host, name, content)
    decreases |steps|
  {
    if steps != [] {
      StepSound(s, steps[0]);
      StepKeepsSettled(s, steps[0], host, name, content);
      RunKeepsSettled(Apply(s, steps[0]), steps[1..], host, name, content);
    }
  }

  /** After the rename the host's stem has this one file. */
  lemma OneFileAfter(dir: Dir, host: string, ext: string, temp: string, body: Bytes)
    requires IsExt(ext) && !Stored(dir, host)
    ensures var after := (dir - {temp})[host + ext := body];
            forall other :: other in after && Stem(other) == host ==> other == host + ext
  {
    var after := (dir - {temp})[host + ext := body];
    forall other | other in after && Stem(other) == host ensures other == host + ext {
      assert other in dir ==> Stored(dir, host);
    }
  }

  /** A successful download that overlapped no other of its host settles it. */
  lemma SuccessSettles(s: State, w: nat, host: string, ext: string)
    requires Sound(s) && Publishes(s, Finish(w)) && s.works[w].host == host && s.works[w].ext == ext
    requires !Stored(s.dir, host) && forall v :: v in s.works && v != w ==> !Downloads(s.works[v], host)
    ensures Settled(Apply(s, Finish(w)), host, host + ext, s.works[w].body)
    ensures Apply(s, Finish(w)).works[w] == Done(Some(host + ext))
  {
    var work := s.works[w];
    assert WorkOk(s.dir, s.served, work);
    OneFileAfter(s.dir, host, ext, work.temp, work.body);
    StemInvertsNaming(host, ext);
    FinalNotTemp(host, ext);
  }

  /** From then on, in any run, every lookup for the host returns that name, its content stays, and nothing is downloaded. */
  lemma LaterCallsReuse(s: State, steps: seq<Step>, host: string, name: string, content: Bytes)
    requires Sound(s) && Settled(s, host, name, content) && !TempShaped(host)
    ensures var t := Run(s, steps);
            && StoredFavicon(t.dir, host) == Some(name) && t.dir[name] == content
            && forall w :: w in t.works ==> !Downloads(t.works[w], host)
  {
    RunKeepsSettled(s, steps, host, name, content);
    assert Stored(Run(s, steps).dir, host);
  }
}
