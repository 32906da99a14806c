/** The log directory as an abstract file system: a map from path to the file's lines.
    A path that is absent is a file that does not exist; an empty sequence is an empty file. */
module Files {

  type FileSystem<L> = map<string, seq<L>>

  /** The lines of a file, or none when it does not exist. */
  function Contents<L>(fs: FileSystem<L>, p: string): seq<L> {
    if p in fs then fs[p] else []
  }

  /** Every path outside `touched` exists in `fs'` exactly when it exists in `fs`, with the same lines. */
  ghost predicate Unchanged<L>(fs: FileSystem<L>, fs': FileSystem<L>, touched: set<string>) {
    forall q :: q !in touched ==> (q in fs <==> q in fs') && (q in fs ==> fs[q] == fs'[q])
  }

  /** `fopen($p, 'a')` then `fputs`: creates the file when missing and adds one line at its end. */
  function Append<L>(fs: FileSystem<L>, p: string, line: L): (r: FileSystem<L>)
    ensures p in r && r[p] == Contents(fs, p) + [line]
    ensures Unchanged(fs, r, {p})
  {
    fs[p := Contents(fs, p) + [line]]
  }

  /** `rename($from, $to)`: a missing source changes nothing; otherwise the source disappears
      and the target (replaced if it existed) holds the source's lines. */
  function Rename<L>(fs: FileSystem<L>, from: string, to: string): (r: FileSystem<L>)
    ensures from !in fs ==> r == fs
    ensures from in fs ==> to in r && r[to] == fs[from]
    ensures from in fs && from != to ==> from !in r
    ensures Unchanged(fs, r, {from, to})
  {
    if from !in fs then fs else (fs - {from})[to := fs[from]]
  }

  /** `unlink($p)`: the file no longer exists; nothing else changes. */
  function Unlink<L>(fs: FileSystem<L>, p: string): (r: FileSystem<L>)
    ensures p !in r
    ensures Unchanged(fs, r, {p})
  {
    fs - {p}
  }

  /** Concatenation regroups; stated once so that proofs about logs and traces can name it. */
  lemma SeqAssoc<T>(a: seq<T>, b: seq<T>, c: seq<T>)
    ensures (a + b) + c == a + (b + c)
  {
  }

  /** Leaving files unchanged composes. */
  lemma UnchangedTrans<L>(a: FileSystem<L>, b: FileSystem<L>, c: FileSystem<L>, s: set<string>, t: set<string>, u: set<string>)
    requires Unchanged(a, b, s) && Unchanged(b, c, t) && s + t <= u
    ensures Unchanged(a, c, u)
  {
  }
}
