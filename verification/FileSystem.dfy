/** The part of a POSIX file system the cache relies on. A key's directory holds at most one `body`, one `meta`
    and one `hdr` file and any number of tmp files. Body and tmp files are inodes, because handlers keep them open
    and `rename` moves them; `meta` and `hdr` are only ever read or written whole. */
module FileSystem {
  import opened Basics
  import opened Sums

  datatype Tmp = Tmp(key: Key, inode: nat)

  /** History: what an inode was made for. An inode becomes a body by being one at start, by being renamed (`maker` is
      then the unique part of its tmp name) or by being created at the body path; `born` is what it held then. */
  datatype Role = TmpFile(tmp: nat) | BodyFile(key: Key, born: Bytes, maker: Option<nat>)

  /** History: who wrote a `meta` or `hdr` file. */
  datatype Source = AtStart | ByWriter(writer: nat) | ByUpdate(update: nat)

  datatype Small = Small(data: Bytes, from: Source)

  datatype INode = INode(content: Bytes, role: Role)

  datatype FS = FS(
    dirs: set<Key>,
    bodies: map<Key, nat>,
    metas: map<Key, Small>,
    hdrs: map<Key, Small>,
    tmps: map<nat, Tmp>,      // by the unique part of the tmp file's name
    inodes: seq<INode>)       // an inode outlives its name while a handler holds it

  /** Files live in existing directories, and no two names share an inode. */
  ghost predicate WellFormed(fs: FS) {
    && (forall k :: k in fs.bodies ==> k in fs.dirs && IsBody(fs, fs.bodies[k], k))
    && (forall k :: k in fs.metas ==> k in fs.dirs)
    && (forall k :: k in fs.hdrs ==> k in fs.dirs)
    && (forall t :: t in fs.tmps ==> fs.tmps[t].key in fs.dirs && IsTmp(fs, fs.tmps[t].inode, t))
  }

  predicate IsBody(fs: FS, inode: nat, k: Key) {
    inode < |fs.inodes| && fs.inodes[inode].role.BodyFile? && fs.inodes[inode].role.key == k
  }

  predicate IsTmp(fs: FS, inode: nat, t: nat) {
    inode < |fs.inodes| && fs.inodes[inode].role == TmpFile(t)
  }

  function Content(fs: FS, inode: nat): Bytes {
    if inode < |fs.inodes| then fs.inodes[inode].content else []
  }

  function SetContent(fs: FS, inode: nat, content: Bytes): FS {
    if inode < |fs.inodes| then fs.(inodes := fs.inodes[inode := fs.inodes[inode].(content := content)]) else fs
  }

  function BodyLen(fs: FS, k: Key): nat {
    if k in fs.bodies then |Content(fs, fs.bodies[k])| else 0
  }

  function MakeDir(fs: FS, k: Key): FS {
    fs.(dirs := fs.dirs + {k})
  }

  /** `File::create` on a fresh tmp name. */
  function CreateTmp(fs: FS, t: nat, k: Key): FS {
    fs.(tmps := fs.tmps[t := Tmp(k, |fs.inodes|)], inodes := fs.inodes + [INode([], TmpFile(t))])
  }

  /** `rename` onto the body path: the inode moves, whatever was there loses its name. */
  function Rename(fs: FS, t: nat): FS
    requires t in fs.tmps
  {
    var k, inode := fs.tmps[t].key, fs.tmps[t].inode;
    var content := Content(fs, inode);
    fs.(bodies := fs.bodies[k := inode], tmps := fs.tmps - {t},
        inodes := if inode < |fs.inodes| then fs.inodes[inode := INode(content, BodyFile(k, content, Some(t)))]
                  else fs.inodes)
  }

  /** `File::create` on the body path: truncates in place, or makes a new empty file. */
  function CreateBody(fs: FS, k: Key, t: nat): FS {
    if k in fs.bodies then SetContent(fs, fs.bodies[k], [])
    else fs.(bodies := fs.bodies[k := |fs.inodes|], inodes := fs.inodes + [INode([], BodyFile(k, [], Some(t)))])
  }

  /** A write at an offset; a gap left by a concurrent truncation reads as zeros. */
  function WriteAt(content: Bytes, offset: nat, data: Bytes): Bytes {
    var padded := if |content| < offset then content + seq(offset - |content|, _ => 0 as byte) else content;
    padded[..offset] + data + (if offset + |data| < |padded| then padded[offset + |data|..] else [])
  }

  function RemoveTmp(fs: FS, t: nat): FS {
    fs.(tmps := fs.tmps - {t})
  }

  function RemoveBody(fs: FS, k: Key): FS {
    fs.(bodies := fs.bodies - {k})
  }

  function PutMeta(fs: FS, k: Key, data: Bytes, from: Source): FS {
    fs.(metas := fs.metas[k := Small(data, from)])
  }

  function PutHdr(fs: FS, k: Key, data: Bytes, from: Source): FS {
    fs.(hdrs := fs.hdrs[k := Small(data, from)])
  }

  function RemoveMeta(fs: FS, k: Key): FS {
    fs.(metas := fs.metas - {k})
  }

  function RemoveHdr(fs: FS, k: Key): FS {
    fs.(hdrs := fs.hdrs - {k})
  }

  predicate DirEmpty(fs: FS, k: Key) {
    k !in fs.bodies && k !in fs.metas && k !in fs.hdrs && forall t :: t in fs.tmps ==> fs.tmps[t].key != k
  }

  /** `remove_dir` succeeds on an empty directory only. */
  function RemoveDir(fs: FS, k: Key): FS {
    if DirEmpty(fs, k) then fs.(dirs := fs.dirs - {k}) else fs
  }

  // - - - bytes on disk

  ghost function BodyLens(fs: FS): map<Key, int> {
    map k | k in fs.bodies :: |Content(fs, fs.bodies[k])|
  }

  function Itself(n: int): int { n }

  /** The total length of all body files. */
  ghost function BytesOnDisk(fs: FS): int {
    Sum(BodyLens(fs), Itself)
  }

  /** If one key's body changes and no other, the total moves by the change of that body's length. */
  lemma BytesOnDiskChange(fs: FS, after: FS, k: Key)
    requires forall j :: j != k ==> (j in after.bodies <==> j in fs.bodies) && BodyLen(after, j) == BodyLen(fs, j)
    ensures BytesOnDisk(after) == BytesOnDisk(fs) + BodyLen(after, k) - BodyLen(fs, k)
  {
    var m, n := BodyLens(fs), BodyLens(after);
    forall j | j != k ensures (j in m <==> j in n) && (j in m ==> n[j] == m[j]) {
      if j in m {
        assert m[j] == BodyLen(fs, j) && n[j] == BodyLen(after, j);
      }
    }
    SumChange(m, n, Itself, k);
  }
}
