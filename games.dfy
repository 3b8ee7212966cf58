/**
  * The recorded game files the viewer replays, and small sequence helpers
  * shared by every component.
  *
  * A JavaScript string or count that may be missing is modelled by its
  * "falsy" form: a missing string is "" and a missing count is 0, since
  * every use goes through `|| ''` or `|| 0`. A missing `move_metadata` is
  * kept apart from an empty one: `move_metadata?.length > turn` is false
  * for a missing array at every turn, but true for an empty one at turn -1.
  */
module Games {

  datatype Option<T> = None | Some(value: T)

  /** One board snapshot: rows of cell marks ("h" hit, "s" sunk, ...). */
  type Board = seq<seq<string>>

  /** One turn of an agent's transcript. */
  datatype MoveEntry = MoveEntry(prompt: string, reasoning: string, move: string, result: string)

  /** Per-agent data of one recorded game. */
  datatype AgentRecord = AgentRecord(
    boardHistory: seq<Board>,
    turns: nat,
    hits: nat,
    moveMetadata: Option<seq<MoveEntry>>)

  datatype AgentEntry = AgentEntry(name: string, record: AgentRecord)

  /** The JSON object of one game: agent name to record, in key order. */
  datatype GameData = GameData(agents: seq<AgentEntry>)

  /** One entry of the loaded collection: `{ gameNum, data }`. */
  datatype Game = Game(gameNum: nat, data: GameData)

  /** `Object.keys(gameData)`. */
  function Names(g: GameData): (r: seq<string>)
    ensures |r| == |g.agents|
    ensures forall i :: 0 <= i < |r| ==> r[i] == g.agents[i].name
  {
    seq(|g.agents|, i requires 0 <= i < |g.agents| => g.agents[i].name)
  }

  /** `gameData[name]` is present. */
  predicate Has(g: GameData, name: string)
  {
    name in Names(g)
  }

  /** A JavaScript object has each key once. */
  predicate WellFormed(g: GameData)
  {
    forall i, j :: 0 <= i < j < |g.agents| ==> g.agents[i].name != g.agents[j].name
  }

  /** `gameData[name]`: the record stored under `name`, if any. */
  function Lookup(g: GameData, name: string): (r: Option<AgentRecord>)
    ensures r.Some? <==> Has(g, name)
    ensures r.Some? ==> exists i :: 0 <= i < |g.agents| && g.agents[i] == AgentEntry(name, r.value)
    decreases |g.agents|
  {
    if |g.agents| == 0 then None
    else if g.agents[0].name == name then Some(g.agents[0].record)
    else
      var r := Lookup(GameData(g.agents[1..]), name);
      assert Names(g) == [g.agents[0].name] + Names(GameData(g.agents[1..]));
      if r.Some? then
        var i :| 0 <= i < |g.agents| - 1 && g.agents[1..][i] == AgentEntry(name, r.value);
        assert g.agents[i + 1] == AgentEntry(name, r.value);
        r
      else r
  }

  /** In a well-formed game the lookup finds the one entry with that name. */
  lemma {:induction false} LookupEntry(g: GameData, i: int)
    requires WellFormed(g) && 0 <= i < |g.agents|
    ensures Lookup(g, g.agents[i].name) == Some(g.agents[i].record)
  {
    var name := g.agents[i].name;
    assert Names(g)[i] == name;
    var r := Lookup(g, name);
    var j :| 0 <= j < |g.agents| && g.agents[j] == AgentEntry(name, r.value);
    assert i == j;
  }

  /** The transcript entries, none when `move_metadata` is missing. */
  function Transcript(rec: AgentRecord): seq<MoveEntry>
  {
    if rec.moveMetadata.Some? then rec.moveMetadata.value else []
  }

  /** `move_metadata?.[turn]`: the transcript entry of that turn, when there is one. */
  function MoveAt(rec: AgentRecord, turn: int): (m: Option<MoveEntry>)
    ensures m.Some? <==> rec.moveMetadata.Some? && 0 <= turn < |rec.moveMetadata.value|
    ensures m.Some? ==> m.value == rec.moveMetadata.value[turn]
  {
    if 0 <= turn < |Transcript(rec)| then Some(Transcript(rec)[turn]) else None
  }

  /** `r` keeps some of the elements of `s`, in their order. */
  predicate IsSubseq<T(==)>(r: seq<T>, s: seq<T>)
    decreases |s|
  {
    r == [] || (s != [] && ((r[0] == s[0] && IsSubseq(r[1..], s[1..])) || IsSubseq(r, s[1..])))
  }

  /** `s.filter(p)`. */
  function Filter<T(==,!new)>(s: seq<T>, p: T -> bool): (r: seq<T>)
    ensures forall x :: x in r <==> x in s && p(x)
    ensures forall x :: multiset(r)[x] == if p(x) then multiset(s)[x] else 0
    ensures IsSubseq(r, s)
  {
    if s == [] then []
    else
      assert s == [s[0]] + s[1..];
      if p(s[0]) then
        var rest := Filter(s[1..], p);
        assert ([s[0]] + rest)[1..] == rest;
        [s[0]] + rest
      else Filter(s[1..], p)
  }

  function Min(a: int, b: int): int { if a <= b then a else b }

  function Max(a: int, b: int): int { if a <= b then b else a }
}
