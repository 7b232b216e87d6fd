/**
 The favicon directory: files named by host, found again by their stem, written
 under a temporary name and renamed.
 */
module FaviconCache {
  import opened Wrappers

  type Bytes = seq<bv8>

  type Dir = map<string, Bytes>

  const MAX_IMAGE_SIZE := 10 * 1024 * 1024

  // --- Names --------------------------------------------------------------------------------

  /** filepath.Ext of a name without separators: from its last dot on. */
  function Ext(name: string): (r: string)
    ensures |r| <= |name| && name[|name| - |r|..] == r
  {
    if name == "" then ""
    else if name[|name| - 1] == '.' then "."
    else
      var rest := Ext(name[..|name| - 1]);
      if rest == "" then "" else rest + [name[|name| - 1]]
  }

  function Stem(name: string): string {
    name[..|name| - |Ext(name)|]
  }

  /** What mime.ExtensionsByType gives for an image type. */
  predicate IsExt(ext: string) {
    |ext| >= 2 && ext[0] == '.' && (forall i :: 1 <= i < |ext| ==> ext[i] != '.') && ext != ".tmp"
  }

  predicate Digits(s: string) {
    s != "" && forall i :: 0 <= i < |s| ==> '0' <= s[i] <= '9'
  }

  /** os.CreateTemp(dir, "*" + ext + ".tmp"). */
  function TempName(random: string, ext: string): string {
    random + ext + ".tmp"
  }

  predicate IsTempOf(name: string, random: string, ext: string) {
    Digits(random) && IsExt(ext) && name == TempName(random, ext)
  }

  /** A host that looks like a temporary name without its last suffix, as in 12.png. */
  ghost predicate TempShaped(host: string) {
    exists random, ext :: IsTempOf(host + ".tmp", random, ext)
  }

  /** checkHostKey. */
  predicate UsableHost(host: string) {
    host != "" && host != "." && host != ".." && forall i :: 0 <= i < |host| ==> host[i] != '/' && host[i] != '\\'
  }

  lemma {:induction false} ExtOf(base: string, ext: string)
    requires |ext| >= 1 && ext[0] == '.' && forall i :: 1 <= i < |ext| ==> ext[i] != '.'
    ensures Ext(base + ext) == ext
    decreases |ext|
  {
    var name := base + ext;
    var last := |ext| - 1;
    if last > 0 {
      assert name[..|name| - 1] == base + ext[..last];
      ExtOf(base, ext[..last]);
      assert ext[..last] + [ext[last]] == ext;
    }
  }

  /** The stem of a saved favicon is its host, dots and all: lookup inverts the naming. */
  lemma StemInvertsNaming(host: string, ext: string)
    requires IsExt(ext)
    ensures Stem(host + ext) == host
  {
    ExtOf(host, ext);
  }

  lemma TempStem(random: string, ext: string)
    requires IsExt(ext)
    ensures Stem(TempName(random, ext)) == random + ext
  {
    ExtOf(random + ext, ".tmp");
    assert random + ext + ".tmp" == TempName(random, ext);
  }

  /** No favicon is saved under a temporary name. */
  lemma FinalIsNotTemp(host: string, ext: string, random: string, other: string)
    requires IsExt(ext) && IsExt(other)
    ensures host + ext != TempName(random, other)
  {
    ExtOf(host, ext);
    ExtOf(random + other, ".tmp");
  }

  // --- Lookup -----------------------------------------------------------------------------------

  predicate Stored(dir: Dir, host: string) {
    exists name :: name in dir && Stem(name) == host
  }

  /** storedFavicon. */
  ghost function StoredFavicon(dir: Dir, host: string): (r: Option<string>)
    ensures r.Some? <==> Stored(dir, host)
    ensures r.Some? ==> r.value in dir && Stem(r.value) == host
  {
    if Stored(dir, host) then
      var name :| name in dir && Stem(name) == host;
      Some(name)
    else None
  }

  // --- Downloads that overlap ---------------------------------------------------------------------

  /** One call of FetchFavicon: temp is the file it writes and body what the server sends. */
  datatype Work =
    | Looking(host: string)
    | Fetching(host: string)
    | Writing(host: string, ext: string, temp: string, body: Bytes, copied: nat)
    | Done(result: Option<string>)

  /** served is the history of response bodies that downloads were opened for. */
  datatype State = State(dir: Dir, works: map<nat, Work>, served: set<Bytes>)

  datatype Step =
    | Call(work: nat, host: string)
    | Look(work: nat)
    | Open(work: nat, random: string, ext: string, body: Bytes)
    | Copy(work: nat, upTo: nat)
    | Finish(work: nat)
    | Fail(work: nat)
    | Die(work: nat)

  function SetWork(s: State, w: nat, work: Work): State {
    s.(works := s.works[w := work])
  }

  /** The reader never hands over more than one byte past the limit. */
  function Readable(body: Bytes): Bytes {
    if |body| <= MAX_IMAGE_SIZE then body else body[..MAX_IMAGE_SIZE + 1]
  }

  ghost function Apply(s: State, step: Step): State {
    match step
    case Call(w, host) =>
      if w in s.works then s else SetWork(s, w, if UsableHost(host) then Looking(host) else Done(None))
    case Look(w) =>
      if w in s.works && s.works[w].Looking?
      then SetWork(s, w, if StoredFavicon(s.dir, s.works[w].host).Some? then Done(StoredFavicon(s.dir, s.works[w].host)) else Fetching(s.works[w].host))
      else s
    case Open(w, random, ext, body) =>
      if w in s.works && s.works[w].Fetching? && Digits(random) && IsExt(ext) && TempName(random, ext) !in s.dir
      then SetWork(s.(dir := s.dir[TempName(random, ext) := []], served := s.served + {body}), w, Writing(s.works[w].host, ext, TempName(random, ext), body, 0))
      else s
    case Copy(w, upTo) =>
      if w in s.works && s.works[w].Writing? && s.works[w].copied <= upTo <= |Readable(s.works[w].body)|
      then SetWork(s.(dir := s.dir[s.works[w].temp := s.works[w].body[..upTo]]), w, s.works[w].(copied := upTo))
      else s
    case Finish(w) =>
      if w in s.works && s.works[w].Writing? && s.works[w].copied == |Readable(s.works[w].body)| then
        if s.works[w].copied > MAX_IMAGE_SIZE then GiveUp(s, w)
        else SetWork(s.(dir := (s.dir - {s.works[w].temp})[s.works[w].host + s.works[w].ext := s.works[w].body]), w,
                     Done(Some(s.works[w].host + s.works[w].ext)))
      else s
    case Fail(w) => if w in s.works then GiveUp(s, w) else s
    case Die(w) => s.(works := s.works - {w})
  }

  /** The deferred clean-up of a call that returns an error. */
  function GiveUp(s: State, w: nat): State
    requires w in s.works
  {
    match s.works[w]
    case Writing(_, _, temp, _, _) => SetWork(s.(dir := s.dir - {temp}), w, Done(None))
    case Done(_) => s
    case _ => SetWork(s, w, Done(None))
  }

  ghost function Run(s: State, steps: seq<Step>): State
    decreases |steps|
  {
    if steps == [] then s else Run(Apply(s, steps[0]), steps[1..])
  }

  const EMPTY := State(map[], map[], {})

  // --- What every interleaving keeps ----------------------------------------------------------------

  ghost predicate IsTemp(name: string) {
    exists random, ext :: IsTempOf(name, random, ext)
  }

  ghost predicate IsFinal(name: string) {
    exists host, ext :: UsableHost(host) && IsExt(ext) && name == host + ext
  }

  /** A published file is one whole response of at most the maximal size. */
  ghost predicate FileOk(dir: Dir, served: set<Bytes>, name: string) {
    name in dir && (IsTemp(name) || (IsFinal(name) && dir[name] in served && |dir[name]| <= MAX_IMAGE_SIZE))
  }

  ghost predicate WorkOk(dir: Dir, served: set<Bytes>, work: Work) {
    match work
    case Looking(host) => UsableHost(host)
    case Fetching(host) => UsableHost(host)
    case Writing(host, ext, temp, body, copied) =>
      && UsableHost(host) && IsExt(ext) && IsTemp(temp) && body in served
      && copied <= |Readable(body)| && temp in dir && dir[temp] == body[..copied]
    case Done(_) => true
  }

  predicate SameTemp(a: Work, b: Work) {
    a.Writing? && b.Writing? && a.temp == b.temp
  }

  ghost predicate Sound(s: State) {
    && (forall name :: name in s.dir ==> FileOk(s.dir, s.served, name))
    && (forall w :: w in s.works ==> WorkOk(s.dir, s.served, s.works[w]))
    && (forall v, w :: v in s.works && w in s.works && SameTemp(s.works[v], s.works[w]) ==> v == w)
  }

  lemma FinalNotTemp(host: string, ext: string)
    requires IsExt(ext)
    ensures !IsTemp(host + ext)
  {
    forall random, other | IsTempOf(host + ext, random, other) ensures false {
      FinalIsNotTemp(host, ext, random, other);
    }
  }

  /** The other downloads' files are not touched. */
  lemma OthersOk(s: State, t: State, w: nat)
    requires Sound(s)
    requires forall v :: v in t.works && v != w ==> v in s.works && t.works[v] == s.works[v]
    requires s.served <= t.served
    requires forall name :: name in s.dir && !(w in s.works && s.works[w].Writing? && s.works[w].temp == name) && IsTemp(name) ==>
               name in t.dir && t.dir[name] == s.dir[name]
    ensures forall v :: v in t.works && v != w ==> WorkOk(t.dir, t.served, t.works[v])
  {
    forall v | v in t.works && v != w ensures WorkOk(t.dir, t.served, t.works[v]) {
      assert WorkOk(s.dir, s.served, s.works[v]);
      if w in s.works && s.works[v].Writing? { assert !SameTemp(s.works[v], s.works[w]) || v == w; }
    }
  }

  lemma OpenSound(s: State, step: Step)
    requires Sound(s) && step.Open?
    ensures Sound(Apply(s, step))
  {
    var t, w := Apply(s, step), step.work;
    if t != s {
      var temp := TempName(step.random, step.ext);
      assert IsTempOf(temp, step.random, step.ext);
      OthersOk(s, t, w);
      forall name | name in t.dir ensures FileOk(t.dir, t.served, name) {
        if name != temp { assert FileOk(s.dir, s.served, name); }
      }
      forall v, u | v in t.works && u in t.works && SameTemp(t.works[v], t.works[u]) ensures v == u {
        if v != w { assert WorkOk(s.dir, s.served, s.works[v]); }
        if u != w { assert WorkOk(s.dir, s.served, s.works[u]); }
        if v != w && u != w { assert SameTemp(s.works[v], s.works[u]); }
      }
    }
  }

  lemma CopySound(s: State, step: Step)
    requires Sound(s) && step.Copy?
    ensures Sound(Apply(s, step))
  {
    var t, w := Apply(s, step), step.work;
    if t != s {
      assert WorkOk(s.dir, s.served, s.works[w]);
      OthersOk(s, t, w);
      forall name | name in t.dir ensures FileOk(t.dir, t.served, name) {
        assert FileOk(s.dir, s.served, name);
      }
      TempsStayApart(s, t, w);
    }
  }

  lemma TempsStayApart(s: State, t: State, w: nat)
    requires Sound(s) && forall v :: v in t.works && v != w ==> v in s.works && t.works[v] == s.works[v]
    requires w in t.works && t.works[w].Writing? ==> w in s.works && s.works[w].Writing? && s.works[w].temp == t.works[w].temp
    ensures forall v, u :: v in t.works && u in t.works && SameTemp(t.works[v], t.works[u]) ==> v == u
  {
    forall v, u | v in t.works && u in t.works && SameTemp(t.works[v], t.works[u]) ensures v == u {
      assert SameTemp(s.works[v], s.works[u]);
    }
  }

  lemma FinishSound(s: State, step: Step)
    requires Sound(s) && step.Finish? && step.work in s.works && s.works[step.work].Writing?
    requires s.works[step.work].copied == |Readable(s.works[step.work].body)| && s.works[step.work].copied <= MAX_IMAGE_SIZE
    ensures Sound(Apply(s, step))
  {
    var t, w := Apply(s, step), step.work;
    var work := s.works[w];
    assert WorkOk(s.dir, s.served, work);
    FinalNotTemp(work.host, work.ext);
    OthersOk(s, t, w);
    forall name | name in t.dir ensures FileOk(t.dir, t.served, name) {
      if name != work.host + work.ext { assert FileOk(s.dir, s.served, name); }
    }
    TempsStayApart(s, t, w);
  }

  lemma GiveUpSound(s: State, w: nat)
    requires Sound(s) && w in s.works
    ensures Sound(GiveUp(s, w))
  {
    var t := GiveUp(s, w);
    OthersOk(s, t, w);
    forall name | name in t.dir ensures FileOk(t.dir, t.served, name) {
      assert FileOk(s.dir, s.served, name);
    }
    TempsStayApart(s, t, w);
  }

  lemma LookSound(s: State, step: Step)
    requires Sound(s) && (step.Call? || step.Look? || step.Die?)
    ensures Sound(Apply(s, step))
  {
    var t := Apply(s, step);
    OthersOk(s, t, step.work);
    if step.Look? && step.work in s.works { assert WorkOk(s.dir, s.served, s.works[step.work]); }
    if !(step.Call? && step.work in s.works) { TempsStayApart(s, t, step.work); }
  }

  lemma StepSound(s: State, step: Step)
    requires Sound(s)
    ensures Sound(Apply(s, step))
  {
    match step
    case Open(_, _, _, _) => OpenSound(s, step);
    case Copy(_, _) => CopySound(s, step);
    case Finish(w) =>
      if w in s.works && s.works[w].Writing? && s.works[w].copied == |Readable(s.works[w].body)| {
        if s.works[w].copied > MAX_IMAGE_SIZE { GiveUpSound(s, w); } else { FinishSound(s, step); }
      }
    case Fail(w) => if w in s.works { GiveUpSound(s, w); }
    case _ => LookSound(s, step);
  }

  lemma {:induction false} RunSound(s: State, steps: seq<Step>)
    requires Sound(s)
    ensures Sound(Run(s, steps))
    decreases |steps|
  {
    if steps != [] {
      StepSound(s, steps[0]);
      RunSound(Apply(s, steps[0]), steps[1..]);
    }
  }
}
