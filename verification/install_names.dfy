/** The names the install protocol gives to directories of the projects root, and why the four
    families (targets, backups, staging containers, recovery quarantines) can never collide. */
module InstallNames {
  import opened Strings

  /** A directory the protocol can name: a folder of the projects root, an entry of a staging
      container of that root, or a folder some manifest entry keeps elsewhere. */
  datatype Path =
    | InRoot(name: string)
    | InContainer(container: string, leaf: string)
    | Elsewhere(spelling: string)

  const PAYLOAD := "payload"
  const REJECTED := "rejected-install"
  const CONTAINER_PREFIX := ".nexthmi-transfer-"
  const QUARANTINE_PREFIX := ".nexthmi-recovery-"

  /** One folder name under the root: not blank, not hidden, no separator. */
  predicate IsFolderName(folder: string) {
    && (exists c :: c in folder && !IsSpace(c))
    && folder[0] != '.'
    && '/' !in folder
  }

  predicate IsTransferChar(c: char) {
    'A' <= c <= 'Z' || 'a' <= c <= 'z' || '0' <= c <= '9' || c in "._-"
  }

  predicate IsTransferId(id: string) {
    1 <= |id| <= 128 && forall c :: c in id ==> IsTransferChar(c)
  }

  function BackupName(folder: string, id: string): string {
    folder + ".bak-" + id
  }

  function QuarantineName(id: string): string {
    QUARANTINE_PREFIX + id
  }

  function ContainerName(id: string, suffix: string): string {
    CONTAINER_PREFIX + id + "-" + suffix
  }

  /** A folder of the root an operator sees; everything the protocol may clear is hidden. */
  predicate Visible(p: Path) {
    p.InRoot? && p.name != "" && p.name[0] != '.'
  }

  predicate IsContainerName(name: string) {
    CONTAINER_PREFIX <= name
  }

  /** Targets and backups are visible and differ; containers and quarantines are hidden and differ. */
  lemma NamesAreDisjoint(folder: string, id: string, otherId: string, suffix: string)
    requires IsFolderName(folder)
    ensures Visible(InRoot(folder)) && Visible(InRoot(BackupName(folder, id)))
    ensures InRoot(folder) != InRoot(BackupName(folder, id))
    ensures !Visible(InRoot(ContainerName(id, suffix))) && !Visible(InRoot(QuarantineName(id)))
    ensures IsContainerName(ContainerName(id, suffix)) && !IsContainerName(QuarantineName(otherId))
    ensures ContainerName(id, suffix) != QuarantineName(otherId)
  {
    assert |BackupName(folder, id)| > |folder|;
    assert BackupName(folder, id)[0] == folder[0];
    var c, q := ContainerName(id, suffix), QuarantineName(otherId);
    assert c[0] == '.' && q[0] == '.';
    assert c[..|CONTAINER_PREFIX|] == CONTAINER_PREFIX;
    assert CONTAINER_PREFIX[9] == 't' && q[9] == 'r' && c[9] == 't';
  }

  /** No name of a staging container is ever visible. */
  lemma ContainersAreHidden(name: string)
    requires IsContainerName(name)
    ensures !Visible(InRoot(name))
  {
    assert name[0] == CONTAINER_PREFIX[0];
  }
}
