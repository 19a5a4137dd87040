/** qBittorrent downloads as Coldarr classifies them (internal/torrents). */
module Downloads {
  import opened PathStrings

  /** Where a download stands in its lifecycle. */
  datatype DownloadState = Ignored | Active | Waiting | Ready | Held | Parked

  /** Whether a download has seeded for as long as it has to, as far as that is known. */
  datatype Seeding = Seeding(known: bool, forever: bool, required: int, seeded: int, met: bool)

  /** A classified download. Its content path is cleaned; tierPath is empty outside every downloads tier. */
  class Download {
    const hash: string
    const name: string
    const contentPath: string
    const tierPath: string
    const size: int
    const seeding: Seeding
    const importsConfirmed: bool
    var state: DownloadState

    constructor (hash: string, name: string, contentPath: string, tierPath: string, size: int, seeding: Seeding, importsConfirmed: bool, state: DownloadState)
      ensures this.hash == hash && this.name == name && this.contentPath == contentPath && this.tierPath == tierPath
      ensures this.size == size && this.seeding == seeding && this.importsConfirmed == importsConfirmed && this.state == state
    {
      this.hash, this.name, this.contentPath, this.tierPath := hash, name, contentPath, tierPath;
      this.size, this.seeding, this.importsConfirmed, this.state := size, seeding, importsConfirmed, state;
    }

    /** On a downloads tier, with files somewhere. */
    predicate Located() {
      tierPath != "" && contentPath != ""
    }
  }
}
