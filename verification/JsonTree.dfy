/** JSON values as the service holds them. Text is a sequence of UTF-8 bytes, written as characters. */
module JsonTree {

  /** `Num` is the service's representation of a number. */
  datatype Json<Num> =
    | Null
    | Bool(on: bool)
    | Number(num: Num)
    | Text(text: string)
    | Array(elements: seq<Json<Num>>)
    | Object(members: seq<Member<Num>>)

  datatype Member<Num> = Member(key: string, value: Json<Num>)

  /** The number of values in a tree. */
  function Nodes<Num>(value: Json<Num>): (n: nat)
    ensures n >= 1
  {
    match value
    case Array(elements) => 1 + AllNodes(elements)
    case Object(members) => 1 + MemberNodes(members)
    case _ => 1
  }

  function AllNodes<Num>(values: seq<Json<Num>>): nat {
    if values == [] then 0 else Nodes(values[0]) + AllNodes(values[1..])
  }

  function MemberNodes<Num>(members: seq<Member<Num>>): nat {
    if members == [] then 0 else Nodes(members[0].value) + MemberNodes(members[1..])
  }
}
