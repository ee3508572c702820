/** JSON values and how they are written, without reference to any reader. */
module Json {
  import opened Common

  datatype Value =
    | Quoted(body: string)
    | Bare(text: string)
    | List(items: seq<Value>)
    | Record(members: seq<Member>)

  datatype Member = Member(key: string, value: Value)

  /** A string body: no bare quote, no lone escape. */
  predicate Body(s: string) {
    if s == "" then true
    else if s[0] == '\\' then |s| >= 2 && s[1] != NUL && Body(s[2..])
    else s[0] != '"' && s[0] != NUL && Body(s[1..])
  }

  /** A number, true, false or null. */
  predicate Word(s: string) {
    s != "" && forall k :: 0 <= k < |s| ==> s[k] !in "\"\\[]{},:" && s[k] != NUL
  }

  predicate Valid(v: Value) {
    match v
    case Quoted(body) => Body(body)
    case Bare(text) => Word(text)
    case List(items) => forall k :: 0 <= k < |items| ==> Valid(items[k])
    case Record(members) => forall k :: 0 <= k < |members| ==> Body(members[k].key) && Valid(members[k].value)
  }

  function Print(v: Value): string
    decreases v, 0
  {
    match v
    case Quoted(body) => "\"" + body + "\""
    case Bare(text) => text
    case List(items) => "[" + PrintItems(items) + "]"
    case Record(members) => "{" + PrintMembers(members) + "}"
  }

  function PrintItems(items: seq<Value>): string
    decreases items, 0
  {
    if items == [] then ""
    else if |items| == 1 then Print(items[0])
    else Print(items[0]) + "," + PrintItems(items[1..])
  }

  function PrintMember(m: Member): string
    decreases m, 1
  {
    "\"" + m.key + "\":" + Print(m.value)
  }

  function PrintMembers(members: seq<Member>): string
    decreases members, 0
  {
    if members == [] then ""
    else if |members| == 1 then PrintMember(members[0])
    else PrintMember(members[0]) + "," + PrintMembers(members[1..])
  }
}
