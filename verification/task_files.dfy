/** The worklist of remoteTaskFiles (task_files.go:33-65): from a prompt, through the "Complete value" lines of every
text it reaches, to the run artifacts those lines name. The loop remembers a path as it is spelled and reads the file
that the spelling comes to, so an artifact is listed once for every way in which it is spelled. */
module TaskFiles {
  import opened Wrappers
  import Excerpts

  type Path = string
  /** A file, by the names of its path from the root. */
  type Place = seq<string>
  datatype File = Explicit(name: string, bytes: string) | Artifact(reference: Path, bytes: string)

  const PREFIX := "Complete value: "

  function Fields(text: string, sep: char): (fields: seq<string>)
    ensures fields != []
  {
    if text == "" then [""]
    else
      var rest := Fields(text[1..], sep);
      if text[0] == sep then [""] + rest else [[text[0]] + rest[0]] + rest[1..]
  }

  function Lines(text: string): (lines: seq<string>)
    ensures lines != []
  {
    Fields(text, '\n')
  }

  /** What the names of a rooted path come to: empty names and dots are dropped, two dots go up and never above the root. */
  function Cleaned(names: seq<string>, place: Place): Place
    decreases names
  {
    if names == [] then place
    else if names[0] == "" || names[0] == "." then Cleaned(names[1..], place)
    else if names[0] == ".." then Cleaned(names[1..], if place == [] then [] else place[..|place| - 1])
    else Cleaned(names[1..], place + [names[0]])
  }

  function Clean(p: Path): Place { Cleaned(Fields(p, '/'), []) }

  predicate Rooted(p: Path) { p != "" && p[0] == '/' }

  /** The path lies below the artifacts directory of the run (task_files.go:49-52). */
  predicate Owned(dir: Place, p: Path) {
    Rooted(p) && dir <= Clean(p) && |Clean(p)| >= |dir| + 2 && Clean(p)[|dir|] == "artifacts"
  }

  /** The path a line names, if it names one. */
  function Named(line: string): Option<Path> { if PREFIX <= line then Some(line[|PREFIX|..]) else None }

  predicate Links(dir: Place, text: string, p: Path) {
    Owned(dir, p) && exists i :: 0 <= i < |Lines(text)| && Named(Lines(text)[i]) == Some(p)
  }

  /** The spellings in a text, and all that can come up: there are finitely many. */
  ghost function Names(text: string): set<Path> {
    set i | 0 <= i < |Lines(text)| && Named(Lines(text)[i]).Some? :: Named(Lines(text)[i]).value
  }

  ghost function Spellings(disk: map<Place, string>, prompt: string): set<Path> {
    Names(prompt) + set f, p | f in disk && p in Names(disk[f]) :: p
  }

  /** A way from the prompt to an artifact, each text naming the next. */
  predicate Way(dir: Place, disk: map<Place, string>, prompt: string, way: seq<Path>) {
    way != [] && Links(dir, prompt, way[0]) &&
    forall i | 0 <= i < |way| - 1 :: Clean(way[i]) in disk && Links(dir, disk[Clean(way[i])], way[i + 1])
  }

  ghost predicate Reachable(dir: Place, disk: map<Place, string>, prompt: string, p: Path) {
    exists way :: Way(dir, disk, prompt, way) && way[|way| - 1] == p
  }

  lemma ReachableNext(dir: Place, disk: map<Place, string>, prompt: string, p: Path, q: Path)
    requires Reachable(dir, disk, prompt, p) && Clean(p) in disk && Links(dir, disk[Clean(p)], q)
    ensures Reachable(dir, disk, prompt, q)
  {
    hide Links, Clean;
    var way :| Way(dir, disk, prompt, way) && way[|way| - 1] == p;
    assert Way(dir, disk, prompt, way + [q]);
  }

  /** The artifacts among the files, in the order they were found. */
  function Found(files: seq<File>): seq<Path> {
    if files == [] then []
    else
      var last := files[|files| - 1];
      Found(files[..|files| - 1]) + (if last.Artifact? then [last.reference] else [])
  }

  ghost predicate Once(q: seq<Path>) { forall i, j | 0 <= i < j < |q| :: q[i] != q[j] }

  /** What the loop keeps: everything seen is reachable, was read once and has its text queued or worked off. */
  ghost predicate Sound(dir: Place, disk: map<Place, string>, prompt: string, explicit: seq<File>,
                        seen: set<Path>, files: seq<File>) {
    && explicit <= files && Once(Found(files[|explicit|..])) && (forall p :: p in seen <==> p in Found(files[|explicit|..]))
    && (forall p | p in seen :: Clean(p) in disk && Owned(dir, p) && Reachable(dir, disk, prompt, p))
    && (forall f | f in files[|explicit|..] :: f.Artifact? && Clean(f.reference) in disk && f.bytes == disk[Clean(f.reference)])
  }

  /** Every link of a text has been followed. */
  ghost predicate Followed(dir: Place, text: string, seen: set<Path>) {
    forall p | Links(dir, text, p) :: p in seen
  }

  /** The texts not in the queue have been worked off. */
  ghost predicate Complete(dir: Place, disk: map<Place, string>, prompt: string, seen: set<Path>,
                           queue: seq<string>) {
    && (prompt in queue || Followed(dir, prompt, seen))
    && (forall p | p in seen && Clean(p) in disk :: disk[Clean(p)] in queue || Followed(dir, disk[Clean(p)], seen))
  }

  /** A text of the queue: the prompt, or an artifact that was reached. */
  ghost predicate Source(dir: Place, disk: map<Place, string>, prompt: string, text: string) {
    text == prompt || exists p :: Clean(p) in disk && Reachable(dir, disk, prompt, p) && disk[Clean(p)] == text
  }

  ghost predicate Sources(dir: Place, disk: map<Place, string>, prompt: string, queue: seq<string>) {
    forall text | text in queue :: Source(dir, disk, prompt, text)
  }

  /** None when a named artifact cannot be read. */
  method RemoteTaskFiles(dir: Place, disk: map<Place, string>, prompt: string, explicit: seq<File>)
    returns (r: Option<seq<File>>)
    ensures r.None? ==> exists p :: Reachable(dir, disk, prompt, p) && Clean(p) !in disk
    ensures r.Some? ==>
              && explicit <= r.value && Once(Found(r.value[|explicit|..]))
              && (forall p :: p in Found(r.value[|explicit|..]) <==> Reachable(dir, disk, prompt, p))
              && (forall f | f in r.value[|explicit|..] :: f.Artifact? && Clean(f.reference) in disk && f.bytes == disk[Clean(f.reference)])
  {
    hide Reachable, Links;
    var files := explicit;
    var queue := [prompt];
    var seen: set<Path> := {};
    assert files[|explicit|..] == [];
    while |queue| > 0
      invariant Sound(dir, disk, prompt, explicit, seen, files)
      invariant Complete(dir, disk, prompt, seen, queue) && Sources(dir, disk, prompt, queue)
      invariant seen <= Spellings(disk, prompt)
      decreases Spellings(disk, prompt) - seen, |queue|
    {
      var text, rest := queue[0], queue[1..];
      assert queue == [text] + rest;
      ghost var before, was := queue, seen;
      var missing;
      missing, seen, files, queue := Follow(dir, disk, prompt, explicit, text, seen, files, rest);
      if missing.Some? { return None; }
      WorkedOff(dir, disk, prompt, text, rest, was, seen, queue);
      SeenIsNamed(dir, disk, prompt, explicit, seen, files);
    }
    assert queue == [];
    AllFound(dir, disk, prompt, explicit, seen, files);
    r := Some(files);
  }

  /** Every line of one text (task_files.go:44-61). */
  method Follow(dir: Place, disk: map<Place, string>, ghost prompt: string, ghost explicit: seq<File>,
                text: string,
                seen0: set<Path>, files0: seq<File>, queue0: seq<string>)
    returns (missing: Option<Path>, seen: set<Path>, files: seq<File>, queue: seq<string>)
    requires Sound(dir, disk, prompt, explicit, seen0, files0) && Sources(dir, disk, prompt, queue0)
    requires Source(dir, disk, prompt, text)
    ensures missing.Some? ==> Reachable(dir, disk, prompt, missing.value) && Clean(missing.value) !in disk
    ensures missing.None? ==>
              && Sound(dir, disk, prompt, explicit, seen, files) && Sources(dir, disk, prompt, queue)
              && seen0 <= seen && queue0 <= queue && Followed(dir, text, seen) && (seen == seen0 ==> queue == queue0)
              && (forall p | p in seen && p !in seen0 && Clean(p) in disk :: disk[Clean(p)] in queue)
  {
    hide Reachable, Sound, Source;
    missing, seen, files, queue := None, seen0, files0, queue0;
    var lines := Lines(text);
    for i := 0 to |lines|
      invariant Sound(dir, disk, prompt, explicit, seen, files) && Sources(dir, disk, prompt, queue)
      invariant seen0 <= seen && queue0 <= queue && (seen == seen0 ==> queue == queue0)
      invariant forall p | p in seen && p !in seen0 && Clean(p) in disk :: disk[Clean(p)] in queue
      invariant forall k | 0 <= k < i && Named(lines[k]).Some? && Owned(dir, Named(lines[k]).value) :: Named(lines[k]).value in seen
    {
      var path := Named(lines[i]);
      if path.None? || !Owned(dir, path.value) || path.value in seen { continue; }
      var p := path.value;
      assert Links(dir, text, p);
      LinkIsReachable(dir, disk, prompt, text, p);
      if Clean(p) !in disk { return Some(p), seen, files, queue; }
      SoundNext(dir, disk, prompt, explicit, seen, files, p);
      ArtifactIsSource(dir, disk, prompt, p);
      seen := seen + {p};
      files := files + [Artifact(p, disk[Clean(p)])];
      queue := queue + [disk[Clean(p)]];
    }
  }

  lemma LinkIsReachable(dir: Place, disk: map<Place, string>, prompt: string, text: string, p: Path)
    requires Source(dir, disk, prompt, text) && Links(dir, text, p)
    ensures Reachable(dir, disk, prompt, p)
  {
    if text == prompt {
      assert Way(dir, disk, prompt, [p]);
    } else {
      var q :| Clean(q) in disk && Reachable(dir, disk, prompt, q) && disk[Clean(q)] == text;
      ReachableNext(dir, disk, prompt, q, p);
    }
  }

  lemma ArtifactIsSource(dir: Place, disk: map<Place, string>, prompt: string, p: Path)
    requires Clean(p) in disk && Reachable(dir, disk, prompt, p)
    ensures Source(dir, disk, prompt, disk[Clean(p)])
  {
  }

  lemma SoundNext(dir: Place, disk: map<Place, string>, prompt: string, explicit: seq<File>, seen: set<Path>,
                  files: seq<File>, p: Path)
    requires Sound(dir, disk, prompt, explicit, seen, files)
    requires p !in seen && Clean(p) in disk && Owned(dir, p) && Reachable(dir, disk, prompt, p)
    ensures Sound(dir, disk, prompt, explicit, seen + {p}, files + [Artifact(p, disk[Clean(p)])])
  {
    hide Reachable, Found, Once;
    var own, f := files[|explicit|..], Artifact(p, disk[Clean(p)]);
    assert (files + [f])[|explicit|..] == own + [f];
    FoundNext(own, f);
    OnceNext(Found(own), p);
  }

  lemma FoundNext(files: seq<File>, f: File)
    requires f.Artifact?
    ensures Found(files + [f]) == Found(files) + [f.reference]
  {
    assert (files + [f])[..|files|] == files;
  }

  lemma OnceNext(paths: seq<Path>, p: Path)
    requires Once(paths) && p !in paths
    ensures Once(paths + [p])
  {
  }

  lemma WorkedOff(dir: Place, disk: map<Place, string>, prompt: string, text: string, rest: seq<string>,
                  was: set<Path>, seen: set<Path>, queue: seq<string>)
    requires Complete(dir, disk, prompt, was, [text] + rest) && was <= seen && rest <= queue && Followed(dir, text, seen)
    requires forall p | p in seen && p !in was && Clean(p) in disk :: disk[Clean(p)] in queue
    ensures Complete(dir, disk, prompt, seen, queue)
  {
    hide Links;
    assert forall t | t in rest :: t in queue;
    forall p | p in seen && Clean(p) in disk ensures disk[Clean(p)] in queue || Followed(dir, disk[Clean(p)], seen) {
      if p in was { assert disk[Clean(p)] in [text] + rest || Followed(dir, disk[Clean(p)], was); }
    }
  }

  lemma SeenIsNamed(dir: Place, disk: map<Place, string>, prompt: string, explicit: seq<File>,
                    seen: set<Path>, files: seq<File>)
    requires Sound(dir, disk, prompt, explicit, seen, files)
    ensures seen <= Spellings(disk, prompt)
  {
    hide Links;
    forall p | p in seen ensures p in Spellings(disk, prompt) {
      var way :| Way(dir, disk, prompt, way) && way[|way| - 1] == p;
      if |way| == 1 {
        LinkIsNamed(dir, prompt, p);
      } else {
        LinkIsNamed(dir, disk[Clean(way[|way| - 2])], p);
      }
    }
  }

  lemma LinkIsNamed(dir: Place, text: string, p: Path)
    requires Links(dir, text, p)
    ensures p in Names(text)
  {
    var i :| 0 <= i < |Lines(text)| && Named(Lines(text)[i]) == Some(p);
    assert Named(Lines(text)[i]).value in Names(text);
  }

  /** When the queue is empty everything reachable was seen. */
  lemma AllFound(dir: Place, disk: map<Place, string>, prompt: string, explicit: seq<File>, seen: set<Path>,
                 files: seq<File>)
    requires Sound(dir, disk, prompt, explicit, seen, files) && Complete(dir, disk, prompt, seen, [])
    ensures forall p :: p in Found(files[|explicit|..]) <==> Reachable(dir, disk, prompt, p)
  {
    hide Links, Clean, Owned, Once;
    forall p | Reachable(dir, disk, prompt, p) ensures p in seen {
      var way :| Way(dir, disk, prompt, way) && way[|way| - 1] == p;
      WaySeen(dir, disk, prompt, seen, way, |way| - 1);
    }
  }

  lemma {:induction false} WaySeen(dir: Place, disk: map<Place, string>, prompt: string, seen: set<Path>,
                                   way: seq<Path>, i: nat)
    requires Way(dir, disk, prompt, way) && i < |way|
    requires Followed(dir, prompt, seen) && forall p | p in seen && Clean(p) in disk :: Followed(dir, disk[Clean(p)], seen)
    ensures way[i] in seen
  {
    if i > 0 {
      WaySeen(dir, disk, prompt, seen, way, i - 1);
      assert Links(dir, disk[Clean(way[i - 1])], way[i]);
    }
  }

  // ---- one artifact under two spellings ----

  /** A listing holds one file twice if and only if two of the paths that can be reached come to that file. */
  lemma ListedTwiceExactly(dir: Place, disk: map<Place, string>, prompt: string, listed: seq<Path>)
    requires Once(listed) && forall p :: p in listed <==> Reachable(dir, disk, prompt, p)
    ensures (exists i, j :: 0 <= i < j < |listed| && Clean(listed[i]) == Clean(listed[j])) <==>
            (exists p, q :: p != q && Reachable(dir, disk, prompt, p) && Reachable(dir, disk, prompt, q) && Clean(p) == Clean(q))
  {
    hide Reachable, Clean;
    if i, j :| 0 <= i < j < |listed| && Clean(listed[i]) == Clean(listed[j]) {
      assert listed[i] != listed[j] && listed[i] in listed && listed[j] in listed;
    }
    if p, q :| p != q && Reachable(dir, disk, prompt, p) && Reachable(dir, disk, prompt, q) && Clean(p) == Clean(q) {
      var i :| 0 <= i < |listed| && listed[i] == p;
      var j :| 0 <= j < |listed| && listed[j] == q;
      if j < i { assert Clean(listed[j]) == Clean(listed[i]); }
    }
  }

  lemma {:induction false} FieldsOne(a: string, sep: char)
    requires sep !in a
    ensures Fields(a, sep) == [a]
  {
    if a != "" {
      FieldsOne(a[1..], sep);
      assert [a[0]] + a[1..] == a;
    }
  }

  lemma {:induction false} FieldsJoin(a: string, sep: char, b: string)
    requires sep !in a
    ensures Fields(a + [sep] + b, sep) == [a] + Fields(b, sep)
  {
    var all := a + [sep] + b;
    if a == "" {
      assert all[1..] == b;
    } else {
      FieldsJoin(a[1..], sep, b);
      assert all[1..] == a[1..] + [sep] + b;
      assert [a[0]] + a[1..] == a;
    }
  }

  function Spelled(names: seq<string>): Path { if names == [] then "" else ['/'] + names[0] + Spelled(names[1..]) }

  lemma {:induction false} FieldsSpelled(names: seq<string>)
    requires names != [] && forall name | name in names :: '/' !in name
    ensures Fields(Spelled(names), '/') == [""] + names
  {
    var name, rest := names[0], names[1..];
    assert names == [name] + rest;
    var tail := name + Spelled(rest);
    assert Spelled(names) == [] + ['/'] + tail;
    FieldsJoin([], '/', tail);
    if rest == [] {
      assert tail == name;
      FieldsOne(name, '/');
    } else {
      FieldsSpelled(rest);
      var after := Spelled(rest)[1..];
      assert Spelled(rest) == [] + ['/'] + after;
      FieldsJoin([], '/', after);
      assert [""] + Fields(after, '/') == [""] + rest;
      assert Fields(after, '/') == ([""] + rest)[1..];
      assert tail == name + ['/'] + after;
      FieldsJoin(name, '/', after);
    }
  }

  predicate Ordinary(name: string) { name !in {"", ".", ".."} && '/' !in name && '\n' !in name }

  lemma {:induction false} CleanedOrdinary(names: seq<string>, place: Place)
    requires forall name | name in names :: Ordinary(name)
    ensures Cleaned(names, place) == place + names
    decreases names
  {
    if names == [] {
      assert place + names == place;
    } else {
      assert Ordinary(names[0]);
      CleanedOrdinary(names[1..], place + [names[0]]);
      assert place + names == place + [names[0]] + names[1..];
    }
  }

  lemma Skips(names: seq<string>, place: Place)
    requires names != [] && (names[0] == "" || names[0] == ".")
    ensures Cleaned(names, place) == Cleaned(names[1..], place)
  {
  }

  /** Both ways of writing it come to the file. */
  lemma TwoSpellings(f: Place)
    requires f != [] && forall name | name in f :: Ordinary(name)
    ensures Clean(Spelled(f)) == Clean(Spelled(["."] + f)) == f && Spelled(f) != Spelled(["."] + f)
    ensures Rooted(Spelled(f)) && Rooted(Spelled(["."] + f))
  {
    FieldsSpelled(f);
    FieldsSpelled(["."] + f);
    CleanedOrdinary(f, []);
    var dotted := ["."] + f;
    assert dotted[1..] == f && Spelled(dotted) == ['/'] + "." + Spelled(f);
    Skips([""] + f, []);
    Skips([""] + dotted, []);
    Skips(dotted, []);
    assert ([""] + f)[1..] == f && ([""] + dotted)[1..] == dotted;
    assert [] + f == f;
    assert |Spelled(["."] + f)| == |Spelled(f)| + 2;
  }

  lemma {:induction false} NoBreaks(names: seq<string>)
    requires forall name | name in names :: '\n' !in name
    ensures '\n' !in Spelled(names)
  {
    if names != [] { NoBreaks(names[1..]); }
  }

  lemma NamedPrompt(dir: Place, disk: map<Place, string>, p: Path, q: Path)
    requires Owned(dir, p) && Owned(dir, q) && '\n' !in p && '\n' !in q
    ensures Reachable(dir, disk, PREFIX + p + ['\n'] + (PREFIX + q), p)
    ensures Reachable(dir, disk, PREFIX + p + ['\n'] + (PREFIX + q), q)
  {
    hide Owned;
    var prompt := PREFIX + p + ['\n'] + (PREFIX + q);
    FieldsJoin(PREFIX + p, '\n', PREFIX + q);
    FieldsOne(PREFIX + q, '\n');
    assert Lines(prompt) == [PREFIX + p, PREFIX + q];
    assert Named(Lines(prompt)[0]) == Some(p) && Named(Lines(prompt)[1]) == Some(q);
    assert Way(dir, disk, prompt, [p]) && Way(dir, disk, prompt, [q]);
  }

  /** Every artifact of the run can be listed twice: by a prompt that names it once as it is and once with a dot in its
  path. */
  lemma ArtifactListedTwice(dir: Place, disk: map<Place, string>, f: Place)
    requires dir <= f && |f| >= |dir| + 2 && f[|dir|] == "artifacts" && forall name | name in f :: Ordinary(name)
    ensures exists prompt, p, q :: p != q && Reachable(dir, disk, prompt, p) && Reachable(dir, disk, prompt, q)
              && Clean(p) == Clean(q) == f
  {
    hide Reachable, Clean, Rooted, Spelled;
    var p, q := Spelled(f), Spelled(["."] + f);
    TwoSpellings(f);
    NoBreaks(f);
    NoBreaks(["."] + f);
    NamedPrompt(dir, disk, p, q);
  }

  // ---- what a line names, and what a path comes to ----

  lemma NamedExactly(line: string, p: Path)
    ensures Named(line) == Some(p) <==> line == "Complete value: " + p
  {
    if PREFIX <= line { assert line == PREFIX + line[|PREFIX|..]; }
  }

  lemma {:induction false} CleanedJoin(a: seq<string>, b: seq<string>, place: Place)
    ensures Cleaned(a + b, place) == Cleaned(b, Cleaned(a, place))
    decreases a
  {
    if a == [] {
      assert a + b == b;
    } else {
      assert (a + b)[0] == a[0] && (a + b)[1..] == a[1..] + b;
      CleanedJoin(a[1..], b, if a[0] == "" || a[0] == "." then place
                             else if a[0] == ".." then (if place == [] then [] else place[..|place| - 1]) else place + [a[0]]);
    }
  }

  /** A name followed by two dots is as nothing, as are empty names and dots; above the root there is nothing. */
  lemma CleanedExactly(before: seq<string>, name: string, after: seq<string>, place: Place)
    requires Ordinary(name)
    ensures Cleaned(before + [name, ".."] + after, place) == Cleaned(before + after, place)
    ensures Cleaned(before + [""] + after, place) == Cleaned(before + ["."] + after, place) == Cleaned(before + after, place)
    ensures Cleaned([".."] + after, []) == Cleaned(after, [])
  {
    var middle := Cleaned(before, place);
    CleanedJoin(before, after, place);
    CleanedJoin(before + [name, ".."], after, place);
    CleanedJoin(before, [name, ".."], place);
    CleanedJoin(before + [""], after, place);
    CleanedJoin(before, [""], place);
    CleanedJoin(before + ["."], after, place);
    CleanedJoin(before, ["."], place);
    CleanedJoin([".."], after, []);
    UpAndDown(name, middle);
  }

  lemma UpAndDown(name: string, place: Place)
    requires Ordinary(name)
    ensures Cleaned([name, ".."], place) == place && Cleaned([""], place) == place && Cleaned(["."], place) == place
    ensures Cleaned([".."], []) == []
  {
    assert [name, ".."][1..] == [".."] && [".."][1..] == [] && [""][1..] == [] && ["."][1..] == [];
    assert (place + [name])[..|place|] == place;
  }

  // ---- an excerpt's reference is followed ----

  lemma FieldsStep(text: string, sep: char)
    ensures text == "" ==> Fields(text, sep) == [""]
    ensures text != "" ==>
              var rest := Fields(text[1..], sep);
              Fields(text, sep) == if text[0] == sep then [""] + rest else [[text[0]] + rest[0]] + rest[1..]
  {
  }

  lemma {:induction false} FieldsBoth(a: string, sep: char, b: string)
    ensures Fields(a + [sep] + b, sep) == Fields(a, sep) + Fields(b, sep)
  {
    hide Fields;
    var all := a + [sep] + b;
    FieldsStep(a, sep);
    FieldsStep(all, sep);
    if a == "" {
      assert all[0] == sep && all[1..] == b;
    } else {
      FieldsBoth(a[1..], sep, b);
      assert all[0] == a[0] && all[1..] == a[1..] + [sep] + b;
      Regroup(Fields(a[1..], sep), Fields(b, sep), a[0]);
    }
  }

  lemma Regroup(first: seq<string>, rest: seq<string>, c: char)
    requires first != []
    ensures [""] + (first + rest) == [""] + first + rest
    ensures [[c] + (first + rest)[0]] + (first + rest)[1..] == [[c] + first[0]] + first[1..] + rest
  {
    assert (first + rest)[1..] == first[1..] + rest;
  }

  lemma LineIsNamed(before: string, p: Path, after: string)
    requires '\n' !in p
    ensures p in Names(before + ['\n'] + (PREFIX + p + ['\n'] + after))
  {
    var line := PREFIX + p;
    var text := before + ['\n'] + (line + ['\n'] + after);
    FieldsBoth(before, '\n', line + ['\n'] + after);
    FieldsJoin(line, '\n', after);
    var lines := Lines(text);
    var i := |Fields(before, '\n')|;
    assert lines[i] == line && Named(lines[i]) == Some(p);
  }

  lemma BreaksThenPrefix()
    ensures "\n\nComplete value: " == ['\n', '\n'] + PREFIX
  {
    assert "\n\nComplete value: "[2..] == PREFIX;
  }

  lemma Regrouped(a: string, marker: string, b: string, p: Path)
    ensures a + (marker + (['\n', '\n'] + PREFIX + p)) + "\n\n" + b ==
            (a + marker + ['\n']) + ['\n'] + (PREFIX + p + ['\n'] + (['\n'] + b))
  {
  }

  /** The value that an excerpt was cut from is named by it, so that a prompt with the excerpt brings the whole file. */
  lemma ExcerptIsFollowed(text: string, kept: int, p: Path)
    requires 0 <= kept < |Excerpts.Repaired(text)| && p != "" && '\n' !in p
    ensures p in Names(Excerpts.Excerpt(text, kept, p))
  {
    hide Names, Excerpts.Excerpt, Excerpts.Marker, Excerpts.Repaired;
    var head, start := Excerpts.ExcerptIsHonest(text, kept, p);
    var s := Excerpts.Repaired(text);
    var marker := "\n\n[... " + Excerpts.FileNames.Itoa(start - head) + " bytes omitted ...]";
    BreaksThenPrefix();
    Regrouped(s[..head], marker, s[start..], p);
    LineIsNamed(s[..head] + marker + ['\n'], p, ['\n'] + s[start..]);
    assert Excerpts.Marker(start - head, p) == marker + (['\n', '\n'] + PREFIX + p);
  }
}
