/** Where files are put. Different keys have different directories, the three files of an entry and any number of tmp
    files in one directory have different names: the file system model relies on this when it keeps a key's files
    apart from each other and from those of other keys. */
module Layout {
  import opened Numerals

  datatype Paths = Paths(dir: string, body: string, meta: string, hdr: string)

  function Join(dir: string, name: string): string {
    dir + "/" + name
  }

  /** `hash` is the hexadecimal string of a key: at least four characters, none of them a slash. */
  function PathFromHash(root: string, hash: string): Paths
    requires |hash| >= 4
  {
    var dir := Join(Join(Join(root, hash[0..2]), hash[2..4]), hash);
    Paths(dir, Join(dir, "body"), Join(dir, "meta"), Join(dir, "hdr"))
  }

  function TmpName(hint: string, pid: nat, nanos: nat): string {
    hint + ".tmp-" + Decimal(pid) + "-" + Decimal(nanos)
  }

  lemma JoinInjective(d1: string, n1: string, d2: string, n2: string)
    requires '/' !in n1 && '/' !in n2 && Join(d1, n1) == Join(d2, n2)
    ensures d1 == d2 && n1 == n2
  {
    var s := Join(d1, n1);
    assert s[|d1|] == '/' && forall i :: |d1| < i < |s| ==> s[i] != '/' by {
      assert forall i :: |d1| < i < |s| ==> s[i] == n1[i - |d1| - 1];
    }
    assert s[|d2|] == '/' && forall i :: |d2| < i < |s| ==> s[i] != '/' by {
      assert forall i :: |d2| < i < |s| ==> s[i] == n2[i - |d2| - 1];
    }
    assert d1 == s[..|d1|] && d2 == s[..|d2|] && n1 == s[|d1| + 1..] && n2 == s[|d2| + 1..];
  }

  /** Any two files in directories of different keys have different paths. */
  lemma KeysApart(root: string, hash1: string, hash2: string, name1: string, name2: string)
    requires |hash1| >= 4 && |hash2| >= 4 && '/' !in hash1 && '/' !in hash2 && '/' !in name1 && '/' !in name2
    ensures Join(PathFromHash(root, hash1).dir, name1) == Join(PathFromHash(root, hash2).dir, name2)
      <==> hash1 == hash2 && name1 == name2
  {
    var d1, d2 := PathFromHash(root, hash1).dir, PathFromHash(root, hash2).dir;
    if Join(d1, name1) == Join(d2, name2) {
      JoinInjective(d1, name1, d2, name2);
      JoinInjective(Join(Join(root, hash1[0..2]), hash1[2..4]), hash1,
                    Join(Join(root, hash2[0..2]), hash2[2..4]), hash2);
    }
  }

  /** Where the files of an entry are. */
  lemma EntryFiles(root: string, hash: string)
    requires |hash| >= 4
    ensures var p := PathFromHash(root, hash);
      && p.dir == root + "/" + hash[0..2] + "/" + hash[2..4] + "/" + hash
      && p.body == p.dir + "/body" && p.meta == p.dir + "/meta" && p.hdr == p.dir + "/hdr"
  {
    var dir := PathFromHash(root, hash).dir;
    assert dir + "/" + "body" == dir + "/body" && dir + "/" + "meta" == dir + "/meta";
    assert dir + "/" + "hdr" == dir + "/hdr";
  }

  /** The three files of an entry are three files, and none is a file of another entry. */
  lemma EntryFilesApart(root: string, hash1: string, hash2: string)
    requires |hash1| >= 4 && |hash2| >= 4 && '/' !in hash1 && '/' !in hash2
    ensures var p, q := PathFromHash(root, hash1), PathFromHash(root, hash2);
      && p.body != q.meta && p.body != q.hdr && p.meta != q.hdr
      && (p.body == q.body <==> hash1 == hash2)
      && (p.meta == q.meta <==> hash1 == hash2) && (p.hdr == q.hdr <==> hash1 == hash2)
  {
    KeysApart(root, hash1, hash2, "body", "meta");
    KeysApart(root, hash1, hash2, "body", "hdr");
    KeysApart(root, hash1, hash2, "meta", "hdr");
    KeysApart(root, hash1, hash2, "body", "body");
    KeysApart(root, hash1, hash2, "meta", "meta");
    KeysApart(root, hash1, hash2, "hdr", "hdr");
    assert "body"[0] == 'b' && "meta"[0] == 'm' && "hdr"[0] == 'h';
  }

  lemma DashSplits(a: string, x: string, b: string, y: string)
    requires '-' !in a && '-' !in b && a + "-" + x == b + "-" + y
    ensures a == b && x == y
  {
    var s := a + "-" + x;
    assert s[|a|] == '-' && forall i :: 0 <= i < |a| ==> s[i] == a[i];
    assert s[|b|] == '-' && forall i :: 0 <= i < |b| ==> s[i] == b[i];
    assert a == s[..|a|] && b == s[..|b|] && x == s[|a| + 1..] && y == s[|b| + 1..];
  }

  /** Tmp names of one key differ if the process or the moment differs, and are no names of entry files. */
  lemma TmpNamesApart(hash: string, pid1: nat, nanos1: nat, pid2: nat, nanos2: nat)
    ensures TmpName(hash, pid1, nanos1) == TmpName(hash, pid2, nanos2) <==> pid1 == pid2 && nanos1 == nanos2
    ensures TmpName(hash, pid1, nanos1) !in {"body", "meta", "hdr"}
  {
    ValueOfDecimal(pid1);
    ValueOfDecimal(nanos1);
    ValueOfDecimal(pid2);
    ValueOfDecimal(nanos2);
    var head := hash + ".tmp-";
    var tail1, tail2 := Decimal(pid1) + "-" + Decimal(nanos1), Decimal(pid2) + "-" + Decimal(nanos2);
    assert TmpName(hash, pid1, nanos1) == head + tail1 && TmpName(hash, pid2, nanos2) == head + tail2;
    assert (head + tail1)[|head|..] == tail1 && (head + tail2)[|head|..] == tail2;
    assert (head + tail1)[|hash|] == '.';
    if tail1 == tail2 {
      DashSplits(Decimal(pid1), Decimal(nanos1), Decimal(pid2), Decimal(nanos2));
    }
  }
}
