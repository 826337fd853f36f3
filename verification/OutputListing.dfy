/** Which objects go into a job's output archive, and under which names. */
module OutputListing {
  import opened Common

  predicate Printable(s: string)
  {
    forall i :: 0 <= i < |s| ==> s[i] as int >= 32 && s[i] as int != 127
  }

  predicate Contains(s: string, t: string)
  {
    exists i :: 0 <= i <= |s| && t <= s[i..]
  }

  predicate SafeJobId(job: string)
  {
    && job != "" && job != "." && job != ".."
    && '/' !in job && '\\' !in job && !Contains(job, "..") && Printable(job)
  }

  /** The parts between slashes. */
  function Split(s: string): (r: seq<string>)
    ensures r != []
    ensures forall i :: 0 <= i < |r| ==> '/' !in r[i]
  {
    if s == "" then [""]
    else if s[0] == '/' then [""] + Split(s[1..])
    else
      var rest := Split(s[1..]);
      [[s[0]] + rest[0]] + rest[1..]
  }

  function JoinParts(parts: seq<string>): (r: string)
    requires parts != []
  {
    if |parts| == 1 then parts[0] else parts[0] + "/" + JoinParts(parts[1..])
  }

  lemma {:induction false} JoinSplit(s: string)
    ensures JoinParts(Split(s)) == s
  {
    if s != "" {
      JoinSplit(s[1..]);
      var rest := Split(s[1..]);
      if s[0] == '/' {
        assert Split(s)[1..] == rest;
      } else {
        var all := Split(s);
        assert all[0] == [s[0]] + rest[0] && all[1..] == rest[1..];
        if |rest| == 1 {
          assert JoinParts(all) == [s[0]] + rest[0];
        } else {
          Associates([s[0]], rest[0], "/");
          Associates([s[0]], rest[0] + "/", JoinParts(rest[1..]));
          assert JoinParts(all) == [s[0]] + JoinParts(rest);
        }
      }
    }
  }

  predicate SafePart(part: string)
  {
    part != "" && part != "." && part != ".."
  }

  /** `<job>/` stripped off; none for a key of another job or an unsafe path. */
  function RelativePath(job: string, key: string): (r: Option<string>)
    ensures r.Some? ==> key == job + "/" + r.value && forall i :: 0 <= i < |Split(r.value)| ==> SafePart(Split(r.value)[i])
  {
    var prefix := job + "/";
    if !(prefix <= key) then None
    else
      var rel := key[|prefix|..];
      if rel == "" || rel[0] == '/' || '\\' in rel || Contains(rel, "//") || !Printable(rel) then None
      else if exists i :: 0 <= i < |Split(rel)| && !SafePart(Split(rel)[i]) then None
      else Some(rel)
  }

  /** Two slashes in a row leave an empty part between them. */
  lemma {:induction false} DoubleSlash(s: string)
    requires Contains(s, "//")
    ensures "" in Split(s)
    decreases |s|
  {
    var i :| 0 <= i <= |s| && "//" <= s[i..];
    if i == 0 {
      assert s[0] == '/' && s[1] == '/';
    } else {
      assert s[i..] == s[1..][i - 1..];
      DoubleSlash(s[1..]);
      var rest := Split(s[1..]);
      if s[0] != '/' && "" == rest[0] {
        EmptyFirst(s[1..]);
        assert s[1..][1..] == s[2..];
        if i == 1 {
          assert s[2] == '/';
          assert Split(s[2..])[0] == "";
          assert rest[1] == "";
        } else {
          assert s[i..] == s[2..][i - 2..];
          DoubleSlash(s[2..]);
          assert "" in rest[1..];
        }
      }
    }
  }

  lemma EmptyFirst(s: string)
    requires s != "" && Split(s)[0] == ""
    ensures s[0] == '/' && Split(s) == [""] + Split(s[1..])
  {
  }

  /** Which keys belong to a job, and under which path: those that continue its prefix
      with printable, non-empty parts, none of which is a dot or two dots. */
  lemma RelativePathIff(job: string, key: string, rel: string)
    ensures RelativePath(job, key) == Some(rel) <==>
              && key == job + "/" + rel && '\\' !in rel && Printable(rel)
              && forall i :: 0 <= i < |Split(rel)| ==> SafePart(Split(rel)[i])
  {
    if key == job + "/" + rel {
      assert key[|job + "/"|..] == rel;
      if Contains(rel, "//") {
        DoubleSlash(rel);
        var i :| 0 <= i < |Split(rel)| && Split(rel)[i] == "";
        assert !SafePart(Split(rel)[i]);
      }
      assert rel == "" || rel[0] == '/' ==> Split(rel)[0] == "" && !SafePart(Split(rel)[0]);
    }
  }

  /** An object and the name it gets in the archive. */
  datatype Entry = Entry(submitted: bool, key: string, name: string)

  datatype Listing = Listed(entries: seq<Entry>) | BadJob | NotOwned | Duplicate(name: string)

  function SubmittedName(rel: string): (r: string)
  {
    "submitted/" + Split(rel)[|Split(rel)| - 1]
  }

  predicate Usable(job: string, key: Option<string>)
  {
    key.Some? && RelativePath(job, key.value).Some?
  }

  /** Two objects listed under one usable key. */
  ghost predicate Repeats(job: string, keys: seq<Option<string>>)
  {
    exists i, j :: 0 <= i < j < |keys| && Usable(job, keys[i]) && keys[i] == keys[j]
  }

  ghost predicate Distinct(entries: seq<Entry>)
  {
    forall i, j :: 0 <= i < j < |entries| ==> entries[i].name != entries[j].name
  }

  lemma OutputNamesDiffer(job: string, a: string, b: string)
    requires RelativePath(job, a).Some? && RelativePath(job, b).Some? && a != b
    ensures "outputs/" + RelativePath(job, a).value != "outputs/" + RelativePath(job, b).value
  {
    var x, y := "outputs/" + RelativePath(job, a).value, "outputs/" + RelativePath(job, b).value;
    assert x[8..] == RelativePath(job, a).value && y[8..] == RelativePath(job, b).value;
  }

  function OutputEntry(job: string, key: string): (r: Entry)
    requires RelativePath(job, key).Some?
  {
    Entry(false, key, "outputs/" + RelativePath(job, key).value)
  }

  /** An entry is the submitted object or one of the keys. */
  ghost predicate Accounted(job: string, keys: seq<Option<string>>, e: Entry)
  {
    || (e.submitted && "submitted/" <= e.name)
    || exists k :: 0 <= k < |keys| && Usable(job, keys[k]) && e == OutputEntry(job, keys[k].value)
  }

  /** Exactly these keys are in, under distinct names. */
  ghost predicate Gathered(job: string, keys: seq<Option<string>>, entries: seq<Entry>)
  {
    && Distinct(entries) && !Repeats(job, keys)
    && (forall k :: 0 <= k < |keys| && Usable(job, keys[k]) ==> OutputEntry(job, keys[k].value) in entries)
    && (forall e :: e in entries ==> Accounted(job, keys, e))
  }

  lemma GatheredSkip(job: string, keys: seq<Option<string>>, key: Option<string>, entries: seq<Entry>)
    requires Gathered(job, keys, entries) && !Usable(job, key)
    ensures Gathered(job, keys + [key], entries)
  {
    assert forall k :: 0 <= k < |keys| ==> (keys + [key])[k] == keys[k];
  }

  lemma GatheredMore(job: string, keys: seq<Option<string>>, key: Option<string>, entries: seq<Entry>)
    requires Gathered(job, keys, entries) && Usable(job, key)
    requires forall e :: e in entries ==> e.name != OutputEntry(job, key.value).name
    ensures Gathered(job, keys + [key], entries + [OutputEntry(job, key.value)])
  {
    var all, next := keys + [key], OutputEntry(job, key.value);
    assert forall k :: 0 <= k < |keys| ==> all[k] == keys[k];
    assert forall k :: 0 <= k < |keys| && Usable(job, keys[k]) ==> keys[k] != key;
    forall e | e in entries + [next] ensures Accounted(job, all, e) {
      if e == next {
        assert Usable(job, all[|keys|]);
      }
    }
  }

  lemma TakenMeansRepeated(job: string, keys: seq<Option<string>>, i: nat, e: Entry)
    requires i < |keys| && Usable(job, keys[i]) && Accounted(job, keys[..i], e)
    requires e.name == OutputEntry(job, keys[i].value).name
    ensures Repeats(job, keys)
  {
    assert e.name[0] == 'o';
    var k :| 0 <= k < i && Usable(job, keys[..i][k]) && e == OutputEntry(job, keys[..i][k].value);
    if keys[k] != keys[i] {
      OutputNamesDiffer(job, keys[k].value, keys[i].value);
    }
  }

  /** The entries of the usable keys, in the order of the keys. */
  function Outputs(job: string, keys: seq<Option<string>>): (r: seq<Entry>)
    decreases |keys|
  {
    if keys == [] then []
    else
      var last := keys[|keys| - 1];
      Outputs(job, keys[..|keys| - 1]) + (if Usable(job, last) then [OutputEntry(job, last.value)] else [])
  }

  lemma OutputsSnoc(job: string, keys: seq<Option<string>>, i: nat)
    requires i < |keys|
    ensures Outputs(job, keys[..i + 1])
            == Outputs(job, keys[..i]) + (if Usable(job, keys[i]) then [OutputEntry(job, keys[i].value)] else [])
  {
    assert keys[..i + 1][..i] == keys[..i];
  }

  /** The submitted object, under its file name. */
  function Submission(job: string, submitted: string): (r: seq<Entry>)
  {
    var rel := RelativePath(job, submitted);
    if submitted == "" || rel.None? then [] else [Entry(true, submitted, SubmittedName(rel.value))]
  }

  /** What is gathered from the first `i` keys, after the entries in `first`. */
  ghost predicate Sofar(job: string, first: seq<Entry>, keys: seq<Option<string>>, i: nat, entries: seq<Entry>)
    requires i <= |keys|
  {
    Gathered(job, keys[..i], entries) && entries == first + Outputs(job, keys[..i])
  }

  lemma SofarSkip(job: string, first: seq<Entry>, keys: seq<Option<string>>, i: nat, entries: seq<Entry>)
    requires i < |keys| && Sofar(job, first, keys, i, entries) && !Usable(job, keys[i])
    ensures Sofar(job, first, keys, i + 1, entries)
  {
    assert keys[..i + 1] == keys[..i] + [keys[i]];
    OutputsSnoc(job, keys, i);
    GatheredSkip(job, keys[..i], keys[i], entries);
  }

  lemma SofarMore(job: string, first: seq<Entry>, keys: seq<Option<string>>, i: nat, entries: seq<Entry>)
    requires i < |keys| && Sofar(job, first, keys, i, entries) && Usable(job, keys[i])
    requires forall e :: e in entries ==> e.name != OutputEntry(job, keys[i].value).name
    ensures Sofar(job, first, keys, i + 1, entries + [OutputEntry(job, keys[i].value)])
  {
    assert keys[..i + 1] == keys[..i] + [keys[i]];
    OutputsSnoc(job, keys, i);
    GatheredMore(job, keys[..i], keys[i], entries);
    Associates(first, Outputs(job, keys[..i]), [OutputEntry(job, keys[i].value)]);
  }

  /** The entries of the keys after those in `first`; the name met twice otherwise. */
  method Gather(job: string, first: seq<Entry>, keys: seq<Option<string>>) returns (r: Listing)
    requires Distinct(first) && forall e :: e in first ==> e.submitted && "submitted/" <= e.name
    ensures r.Listed? || r.Duplicate?
    ensures r.Duplicate? <==> Repeats(job, keys)
    ensures r.Listed? ==> Gathered(job, keys, r.entries) && r.entries == first + Outputs(job, keys)
  {
    var entries := first;
    var i := 0;
    while i < |keys|
      invariant 0 <= i <= |keys| && Sofar(job, first, keys, i, entries)
    {
      if Usable(job, keys[i]) {
        var next := OutputEntry(job, keys[i].value);
        if exists e :: e in entries && e.name == next.name {
          ghost var e :| e in entries && e.name == next.name;
          TakenMeansRepeated(job, keys, i, e);
          return Duplicate(next.name);
        }
        SofarMore(job, first, keys, i, entries);
        entries := entries + [next];
      } else {
        SofarSkip(job, first, keys, i, entries);
      }
      i := i + 1;
    }
    assert keys[..i] == keys;
    r := Listed(entries);
  }

  /** The entries of a job's archive: refused for an unsafe job, a submitted key of
      another job, or exactly when one usable key is listed twice; otherwise all
      usable keys in order after the submitted one, and nothing else, under distinct
      names. */
  method Collect(job: string, submitted: string, keys: seq<Option<string>>) returns (r: Listing)
    ensures r == BadJob <==> !SafeJobId(job)
    ensures r == NotOwned <==> SafeJobId(job) && submitted != "" && RelativePath(job, submitted).None?
    ensures r.Duplicate? <==> r != BadJob && r != NotOwned && Repeats(job, keys)
    ensures r.Listed? ==> Gathered(job, keys, r.entries) && r.entries == Submission(job, submitted) + Outputs(job, keys)
  {
    if !SafeJobId(job) {
      return BadJob;
    }
    var entries: seq<Entry> := [];
    if submitted != "" {
      var rel := RelativePath(job, submitted);
      if rel.None? {
        return NotOwned;
      }
      entries := [Entry(true, submitted, SubmittedName(rel.value))];
    }
    r := Gather(job, entries, keys);
  }
}
