/** WALSince: two listings instead of a scan of the whole archive. */
module WalSince {
  import opened LeaseNames

  /** A file of the archive: a WAL file in a directory, or a history file right
      under wals/. */
  datatype File = InDirectory(directory: string, modified: nat) | Direct(modified: nat)

  /** One line of the shallow listing: a directory, or a file. */
  datatype Line = Directory(name: string) | Plain(modified: nat)

  /** The shallow listing, in any order. */
  ghost predicate Shallow(lines: seq<Line>, files: seq<File>) {
    && (forall f :: f in files ==> (match f case InDirectory(d, _) => Directory(d) in lines case Direct(m) => Plain(m) in lines))
    && (forall l :: l in lines ==> (match l case Directory(d) => (exists m: nat :: InDirectory(d, m) in files) case Plain(m) => Direct(m) in files))
    && (forall l :: l in lines && l.Directory? ==> l.name != "")
  }

  /** The listing of one directory, in any order. */
  ghost predicate Deep(times: seq<nat>, files: seq<File>, directory: string) {
    forall m: nat :: m in times <==> InDirectory(directory, m) in files
  }

  ghost predicate SomeSince(files: seq<File>, since: nat) { exists f :: f in files && f.modified > since }

  ghost predicate DirectSince(files: seq<File>, since: nat) { exists m: nat :: Direct(m) in files && m > since }

  ghost predicate DirectorySince(files: seq<File>, directory: string, since: nat) { exists m: nat :: InDirectory(directory, m) in files && m > since }

  ghost predicate IsLast(files: seq<File>, directory: string) {
    && (exists m: nat :: InDirectory(directory, m) in files)
    && forall f :: f in files && f.InDirectory? ==> f.directory == directory || Before(f.directory, directory)
  }

  /** The first loop: a newer file, or the last directory by name. */
  method ListShallow(lines: seq<Line>, since: nat) returns (written: bool, last: string)
    requires forall l :: l in lines && l.Directory? ==> l.name != ""
    ensures written <==> exists m: nat :: Plain(m) in lines && m > since
    ensures !written && last == "" ==> forall l :: l in lines ==> l.Plain?
    ensures !written && last != "" ==> Directory(last) in lines && forall d :: Directory(d) in lines ==> d == last || Before(d, last)
  {
    last := "";
    for i := 0 to |lines|
      invariant forall j :: 0 <= j < i && lines[j].Plain? ==> lines[j].modified <= since
      invariant last == "" ==> forall j :: 0 <= j < i ==> lines[j].Plain?
      invariant last != "" ==> Directory(last) in lines
      invariant forall j :: 0 <= j < i && lines[j].Directory? ==> lines[j].name == last || Before(lines[j].name, last)
    {
      match lines[i]
      case Directory(name) =>
        BeforeTotal(name, last);
        assert lines[i] in lines;
        if Before(last, name) {
          forall j | 0 <= j < i && lines[j].Directory? ensures Before(lines[j].name, name) {
            if lines[j].name != last { BeforeTransitive(lines[j].name, last, name); }
          }
          last := name;
        }
      case Plain(modified) =>
        if modified > since {
          assert lines[i] in lines;
          return true, last;
        }
    }
    written := false;
  }

  /** The second loop. */
  method AnySince(times: seq<nat>, since: nat) returns (written: bool)
    ensures written <==> exists m: nat :: m in times && m > since
  {
    for i := 0 to |times|
      invariant forall j :: 0 <= j < i ==> times[j] <= since
    {
      if times[i] > since {
        assert times[i] in times;
        return true;
      }
    }
    written := false;
  }

  /** WALSince: what the two listings find. `deep` gives the second listing once
      the first one named a directory. */
  method WALSince(files: seq<File>, lines: seq<Line>, deep: string -> seq<nat>, since: nat) returns (written: bool)
    requires Shallow(lines, files) && forall d :: Deep(deep(d), files, d)
    ensures written <==> DirectSince(files, since) || exists d :: IsLast(files, d) && DirectorySince(files, d, since)
  {
    var last;
    written, last := ListShallow(lines, since);
    if written {
      var m: nat :| Plain(m) in lines && m > since;
      assert Direct(m) in files;
      return true;
    }
    assert !DirectSince(files, since) by {
      forall m: nat | Direct(m) in files ensures m <= since { assert Plain(m) in lines; }
    }
    if last == "" {
      NoDirectory(lines, files);
      return false;
    }
    written := AnySince(deep(last), since);
    LastIsFound(lines, files, last);
    assert written <==> DirectorySince(files, last, since) by { assert Deep(deep(last), files, last); }
  }

  lemma NoDirectory(lines: seq<Line>, files: seq<File>)
    requires Shallow(lines, files) && forall l :: l in lines ==> l.Plain?
    ensures forall d :: !IsLast(files, d)
  {
    assert forall d :: Directory(d) !in lines;
    assert forall f :: f in files ==> f.Direct?;
  }

  lemma LastIsFound(lines: seq<Line>, files: seq<File>, last: string)
    requires Shallow(lines, files) && Directory(last) in lines && forall d :: Directory(d) in lines ==> d == last || Before(d, last)
    ensures IsLast(files, last) && forall d :: IsLast(files, d) ==> d == last
  {
    forall f | f in files && f.InDirectory? ensures f.directory == last || Before(f.directory, last) {
      assert Directory(f.directory) in lines;
    }
    forall d | IsLast(files, d) ensures d == last {
      var m: nat :| InDirectory(d, m) in files;
      assert InDirectory(d, m).directory == d;
      var k: nat :| InDirectory(last, k) in files;
      assert InDirectory(last, k).directory == last;
      if d != last {
        BeforeTransitive(d, last, d);
        BeforeIrreflexive(d);
      }
    }
  }

  /** The two listings answer what a scan of the whole archive would, exactly when
      a newer file in some directory comes with a newer one in the last
      directory or right under wals/. */
  lemma TwoListingsSuffice(files: seq<File>, since: nat)
    ensures var two := DirectSince(files, since) || exists d :: IsLast(files, d) && DirectorySince(files, d, since);
            (two <==> SomeSince(files, since)) <==>
            ((exists d :: DirectorySince(files, d, since)) ==> DirectSince(files, since) || exists d :: IsLast(files, d) && DirectorySince(files, d, since))
  {
    if f :| f in files && f.modified > since {
      match f
      case InDirectory(d, m) => assert DirectorySince(files, d, since);
      case Direct(m) => assert DirectSince(files, since);
    }
    if DirectSince(files, since) {
      var m: nat :| Direct(m) in files && m > since;
      assert Direct(m).modified > since;
    }
    if d :| DirectorySince(files, d, since) {
      var m: nat :| InDirectory(d, m) in files && m > since;
      assert InDirectory(d, m).modified > since;
    }
  }

  /** The archive as barman writes it: along the names of the directories the
      files are never older. */
  ghost predicate AlongTheNames(files: seq<File>) {
    forall f, g :: f in files && g in files && f.InDirectory? && g.InDirectory? && Before(f.directory, g.directory) ==> f.modified <= g.modified
  }

  lemma {:induction false} LastExists(files: seq<File>) returns (d: string)
    requires exists f :: f in files && f.InDirectory?
    ensures IsLast(files, d)
  {
    var front, last := files[..|files| - 1], files[|files| - 1];
    assert files == front + [last];
    if exists f :: f in front && f.InDirectory? {
      d := LastExists(front);
      if last.InDirectory? && last.directory != d && !Before(last.directory, d) {
        BeforeTotal(last.directory, d);
        forall f | f in files && f.InDirectory? && f.directory != last.directory ensures Before(f.directory, last.directory) {
          if f.directory != d { BeforeTransitive(f.directory, d, last.directory); }
        }
        d := last.directory;
        assert InDirectory(d, last.modified) in files;
      } else {
        var m: nat :| InDirectory(d, m) in front;
        assert InDirectory(d, m) in files;
      }
    } else {
      d := last.directory;
      assert InDirectory(d, last.modified) in files;
    }
  }

  /** In such an archive the two listings answer what a scan of the whole archive
      would. */
  lemma AlongTheNamesSuffices(files: seq<File>, since: nat)
    requires AlongTheNames(files)
    ensures SomeSince(files, since) <==> DirectSince(files, since) || exists d :: IsLast(files, d) && DirectorySince(files, d, since)
  {
    TwoListingsSuffice(files, since);
    if d :| DirectorySince(files, d, since) {
      var m: nat :| InDirectory(d, m) in files && m > since;
      var f := InDirectory(d, m);
      assert f in files && f.InDirectory? && f.directory == d && f.modified == m;
      var last := LastExists(files);
      var k: nat :| InDirectory(last, k) in files;
      var g := InDirectory(last, k);
      assert g in files && g.directory == last && g.modified == k;
      assert d == last || Before(d, last);
      assert DirectorySince(files, last, since) by { assert d == last || m <= k; }
    }
  }
}
