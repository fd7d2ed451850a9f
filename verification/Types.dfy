/** Values shared by every module: identifiers, messages, and the membership table that the
    temporary groups of a node stand for. */
module Types {
  type Uid = string
  type Gid = string

  newtype byte = x: int | 0 <= x < 256
  type Bytes = seq<byte>

  datatype Option<+T> = None | Some(value: T)

  /** A message queued for a group: the payload, and one member who must not get it. */
  datatype GroupMsg = GroupMsg(exceptUid: Uid, msg: Bytes)

  /** Who is in which group. A group nobody is in has no entry. */
  type Table = map<Gid, set<Uid>>

  function MembersOf(m: Table, gid: Gid): set<Uid> {
    if gid in m then m[gid] else {}
  }

  function AddMember(m: Table, gid: Gid, uid: Uid): Table {
    m[gid := MembersOf(m, gid) + {uid}]
  }

  function RemoveMember(m: Table, gid: Gid, uid: Uid): Table {
    var rest := MembersOf(m, gid) - {uid};
    if rest == {} then m - {gid} else m[gid := rest]
  }

  /** Joining and leaving change one group by one user. */
  lemma MembersAfter(m: Table, gid: Gid, uid: Uid)
    ensures forall k ::
      MembersOf(AddMember(m, gid, uid), k) == if k == gid then MembersOf(m, k) + {uid} else MembersOf(m, k)
    ensures forall k ::
      MembersOf(RemoveMember(m, gid, uid), k) == if k == gid then MembersOf(m, k) - {uid} else MembersOf(m, k)
  {
  }
}
