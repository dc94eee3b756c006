/** The one primitive that moves directories, shared by installs and startup reconciliation. */
module InstallDisk {
  import opened InstallNames
  import opened InstallModel

  /** The identity-bound rename that refuses an existing destination. */
  method TryRename(fs: Files, src: Path, dst: Path, ident: Ident) returns (ok: bool, after: Files)
    ensures ok <==> CanRename(fs, src, dst, ident)
    ensures ok ==> dst in after && after[dst] == fs[src] && src !in after && after == Renamed(fs, src, dst)
    ensures forall p :: p != src && p != dst ==> (p in after <==> p in fs) && (p in after ==> after[p] == fs[p])
    ensures !ok ==> after == fs
  {
    ok := src in fs && fs[src].ident == ident && dst !in fs && (dst.InContainer? ==> InRoot(dst.container) in fs);
    after := if ok then (fs - {src})[dst := fs[src]] else fs;
  }
}
