/** Content digests as free constructors: equal digests cover equal content. */
module Digests {
  import opened Graph
  import opened Commands

  datatype Command = Command(id: Id, base: Digest, transactionId: Id, actor: Id, op: Op, key: Id)

  datatype Digest =
    | GraphHash(graph: Graph)
    | GenesisHash(graphHash: Digest)
    | RevisionHash(parent: Digest, sequence: int, graphHash: Digest, commands: seq<Digest>, report: Digest, preview: Digest)
    | PreviewHash(base: Digest, transactionId: Id, graphHash: Digest, commands: seq<Digest>)
    | CommandHash(command: Command)
    | ReleaseHash(base: Digest, preview: Digest, report: Digest)
    | External(text: string)
}
