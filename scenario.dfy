/**
 A worked example: a person with a name, tags and two friends; the producer
 renames the person, adds a tag and renames the first friend. The arenas after each
 step are written out, and each step is proved separately.
 */
module Scenario {
  import opened Values
  import opened DraftTree
  import opened Finalizer
  import opened Producer

  const Person: ObjId := 0
  const Tags: ObjId := 1
  const Friends: ObjId := 2
  const FriendX: ObjId := 3
  const FriendY: ObjId := 4

  function S(s: string): Value { Scalar(Str(s)) }

  function Base(): Store
  {
    map[
      Person := BaseNode(PlainRecord, map["name" := S("Steve"), "tags" := Obj(Tags), "friends" := Obj(Friends)]),
      Tags := BaseNode(PlainArray, map["0" := S("a")]),
      Friends := BaseNode(PlainArray, map["0" := Obj(FriendX), "1" := Obj(FriendY)]),
      FriendX := BaseNode(PlainRecord, map["name" := S("x")]),
      FriendY := BaseNode(PlainRecord, map["name" := S("y")])
    ]
  }

  /** `draft.name = "Bob"; draft.tags[1] = "b"; draft.friends[0].name = "z"` */
  function Edits(): seq<Op>
  {
    [ Assign([], "name", S("Bob")),
      Assign(["tags"], "1", S("b")),
      Assign(["friends", "0"], "name", S("z")) ]
  }

  // The arenas along the run.

  function RootRenamed(): State
  {
    State(true, None, Person, map["name" := S("Bob"), "tags" := Obj(Tags), "friends" := Obj(Friends)], map[])
  }

  function Ds1(): seq<State> { [RootRenamed()] }

  function Ds2(): seq<State>
  {
    [ RootRenamed().(copy := RootRenamed().copy["tags" := DraftRef(1)]),
      State(true, Some(0), Tags, map["0" := S("a"), "1" := S("b")], map[]) ]
  }

  function Ds3(): seq<State>
  {
    [ Ds2()[0].(copy := Ds2()[0].copy["friends" := DraftRef(2)]),
      Ds2()[1],
      State(true, Some(0), Friends, map["0" := DraftRef(3), "1" := Obj(FriendY)], map["0" := DraftRef(3)]),
      State(true, Some(2), FriendX, map["name" := S("z")], map[]) ]
  }

  lemma BaseOk()
    ensures StoreOk(Base()) && ScriptOk(Base(), Edits())
  {
  }

  lemma Step1()
    ensures StoreOk(Base()) && Shape(Base(), Root(Person))
    ensures Set(Base(), Root(Person), 0, "name", S("Bob")) == Ds1()
  {
    BaseOk();
    assert StateOk(Base(), 1, 0, Root(Person)[0]);
    var m := Marked(Base(), Root(Person)[0]);
    assert MarkChanged(Base(), Root(Person), 0) == [m];
    assert m.copy == Base()[Person].entries;
    assert m.copy["name" := S("Bob")] == RootRenamed().copy;
    assert !IsNoOp(Base(), Root(Person), 0, "name", S("Bob"));
  }

  lemma Ds1Shape()
    ensures StoreOk(Base()) && Shape(Base(), Ds1())
  {
    BaseOk();
    assert StateOk(Base(), 1, 0, Ds1()[0]);
  }

  lemma Step2()
    ensures Shape(Base(), Ds1())
    ensures var w := Walk(Base(), Ds1(), 0, ["tags"]);
      && w.at == Some(1)
      && Set(Base(), w.drafts, 1, "1", S("b")) == Ds2()
  {
    Ds1Shape();
    var read := [Ds2()[0], CreateState(Some(0), Tags)];
    var g := Get(Base(), Ds1(), 0, "tags");
    assert g == Fetched(read, DraftRef(1));
    var path: seq<Key> := ["tags"];
    assert path[1..] == [];
    assert Walk(Base(), Ds1(), 0, path) == Reached(read, Some(1));
    var m := Marked(Base(), read[1]);
    assert m.copy == Base()[Tags].entries;
    assert MarkChanged(Base(), read, 1) == read[1 := m];
    assert !IsNoOp(Base(), read, 1, "1", S("b"));
    assert m.copy["1" := S("b")] == Ds2()[1].copy;
  }

  lemma Ds2Shape()
    ensures StoreOk(Base()) && Shape(Base(), Ds2())
  {
    BaseOk();
    assert StateOk(Base(), 2, 0, Ds2()[0]);
    assert StateOk(Base(), 2, 1, Ds2()[1]);
  }

  function Friends3(): State
  {
    State(false, Some(0), Friends, map[], map["0" := DraftRef(3)])
  }

  /** The arena once `draft.friends[0]` has been read. */
  function Read3(): seq<State>
  {
    [Ds3()[0], Ds2()[1], Friends3(), CreateState(Some(2), FriendX)]
  }

  lemma Step3Get1()
    ensures Shape(Base(), Ds2())
    ensures Get(Base(), Ds2(), 0, "friends") == Fetched([Ds3()[0], Ds2()[1], CreateState(Some(0), Friends)], DraftRef(2))
  {
    Ds2Shape();
  }

  lemma Step3Get2()
    ensures var read1 := [Ds3()[0], Ds2()[1], CreateState(Some(0), Friends)];
      Shape(Base(), read1) && Get(Base(), read1, 2, "0") == Fetched(Read3(), DraftRef(3))
  {
    Step3Get1();
  }

  lemma Step3Walk()
    ensures Shape(Base(), Ds2())
    ensures Walk(Base(), Ds2(), 0, ["friends", "0"]) == Reached(Read3(), Some(3))
  {
    Step3Get1();
    Step3Get2();
    var read1 := [Ds3()[0], Ds2()[1], CreateState(Some(0), Friends)];
    var path: seq<Key> := ["friends", "0"];
    assert path[1..] == ["0"] && path[1..][1..] == [];
    assert Walk(Base(), read1, 2, path[1..]) == Reached(Read3(), Some(3));
  }

  lemma Read3Shape()
    ensures Shape(Base(), Read3())
  {
    Step3Walk();
  }

  lemma Mark3Parent()
    ensures var m3 := Read3()[3 := Ds3()[3].(copy := map["name" := S("x")])];
      Shape(Base(), m3) && MarkChanged(Base(), m3, 2) == m3[2 := Ds3()[2]]
  {
    Read3Shape();
    var m3 := Read3()[3 := Marked(Base(), Read3()[3])];
    MarkedShape(Base(), Read3(), 3);
    assert Marked(Base(), Read3()[3]).copy == map["name" := S("x")];
    var m2 := Marked(Base(), Friends3());
    assert m2.copy == Ds3()[2].copy;
  }

  lemma Mark3()
    ensures Shape(Base(), Read3())
    ensures MarkChanged(Base(), Read3(), 3) == Read3()[3 := Ds3()[3].(copy := map["name" := S("x")])][2 := Ds3()[2]]
  {
    Read3Shape();
    Mark3Parent();
    assert Marked(Base(), Read3()[3]).copy == map["name" := S("x")];
  }

  lemma Step3Set()
    ensures Shape(Base(), Read3())
    ensures Set(Base(), Read3(), 3, "name", S("z")) == Ds3()
  {
    Mark3();
    assert !IsNoOp(Base(), Read3(), 3, "name", S("z"));
    var mc := MarkChanged(Base(), Read3(), 3);
    assert mc[3].copy["name" := S("z")] == Ds3()[3].copy;
    assert mc[3 := mc[3].(copy := mc[3].copy["name" := S("z")])] == Ds3();
  }

  lemma Ds3Shape()
    ensures StoreOk(Base()) && Shape(Base(), Ds3())
  {
    Step3Set();
  }

  function Op(i: nat): Op requires i < 3 { Edits()[i] }

  lemma Step3Op()
    ensures Shape(Base(), Read3()) && StoreValue(Base(), Op(2).value)
    ensures Step(Base(), Read3(), 3, Op(2)) == Ds3()
  {
    Step3Set();
  }

  lemma Run3()
    ensures Shape(Base(), Ds2()) && ScriptOk(Base(), [Op(2)])
    ensures Run(Base(), Ds2(), [Op(2)]) == Some(Ds3())
  {
    BaseOk();
    Step3Walk();
    Step3Op();
    Ds3Shape();
    var p := [Op(2)];
    assert p[0] in p && p[1..] == [];
    assert Run(Base(), Ds3(), p[1..]) == Some(Ds3());
  }

  lemma Run2()
    ensures Shape(Base(), Ds1()) && ScriptOk(Base(), [Op(1), Op(2)])
    ensures Run(Base(), Ds1(), [Op(1), Op(2)]) == Some(Ds3())
  {
    BaseOk();
    Step2();
    Run3();
    assert [Op(1), Op(2)][1..] == [Op(2)];
  }

  lemma RunEdits()
    ensures StoreOk(Base()) && Shape(Base(), Root(Person)) && ScriptOk(Base(), Edits())
    ensures Run(Base(), Root(Person), Edits()) == Some(Ds3())
  {
    BaseOk();
    Step1();
    Run2();
    assert Edits()[1..] == [Op(1), Op(2)];
  }

  function Expected(): Output
  {
    Record(map[
      "name" := Plain(S("Bob")),
      "tags" := Record(map["0" := Plain(S("a")), "1" := Plain(S("b"))]),
      "friends" := Record(map["0" := Record(map["name" := Plain(S("z"))]), "1" := Plain(Obj(FriendY))])])
  }

  lemma FinalizeLeaves()
    ensures Shape(Base(), Ds3())
    ensures Finalize(Base(), Ds3(), 3) == Expected().fields["friends"].fields["0"]
    ensures Finalize(Base(), Ds3(), 1) == Expected().fields["tags"]
  {
    Ds3Shape();
    FinalizeEntry(Base(), Ds3(), 3, "name");
    FinalizeEntry(Base(), Ds3(), 1, "0");
    FinalizeEntry(Base(), Ds3(), 1, "1");
  }

  lemma FinalizeFriends()
    ensures Shape(Base(), Ds3())
    ensures Finalize(Base(), Ds3(), 2) == Expected().fields["friends"]
  {
    FinalizeLeaves();
    FinalizeEntry(Base(), Ds3(), 2, "0");
    FinalizeEntry(Base(), Ds3(), 2, "1");
  }

  /** The root of the final arena, written out. */
  lemma Ds3Root()
    ensures Ds3()[0] == State(true, None, Person, map["name" := S("Bob"), "tags" := DraftRef(1), "friends" := DraftRef(2)], map[])
  {
    assert Ds3()[0].copy == map["name" := S("Bob"), "tags" := DraftRef(1), "friends" := DraftRef(2)];
  }

  lemma FinalizeRoot()
    ensures Shape(Base(), Ds3())
    ensures Finalize(Base(), Ds3(), 0) == Expected()
  {
    FinalizeLeaves();
    FinalizeFriends();
    Ds3Root();
    var tags := Finalize(Base(), Ds3(), 1);
    var friends := Finalize(Base(), Ds3(), 2);
    var r := Finalize(Base(), Ds3(), 0);
    assert r.fields == map["name" := Plain(S("Bob")), "tags" := tags, "friends" := friends];
  }

  /**
   The result has the new name, the new tag (in a record: arrays are rebuilt as records)
   and the renamed first friend, while the second friend is the base object itself.
   */
  lemma EditsResult()
    ensures StoreOk(Base()) && ScriptOk(Base(), Edits())
    ensures Produce(Base(), Person, Edits()) == Some(Expected())
    ensures Expected().fields["friends"].fields["1"] == Plain(Obj(FriendY))
  {
    RunEdits();
    FinalizeRoot();
  }

  /** `draft.friends[1].name = draft.friends[1].name`: the write stores what is already there. */
  function WriteBack(): seq<Op>
  {
    [Load(["friends", "1"], "name"), Assign(["friends", "1"], "name", S("y"))]
  }

  /** The arena once `draft.friends[1]` has been read: two cached children, nothing modified. */
  function ReadBack(): seq<State>
  {
    [ State(false, None, Person, map[], map["friends" := DraftRef(1)]),
      State(false, Some(0), Friends, map[], map["1" := DraftRef(2)]),
      CreateState(Some(1), FriendY) ]
  }

  lemma WriteBackWalk()
    ensures StoreOk(Base()) && Shape(Base(), Root(Person))
    ensures Walk(Base(), Root(Person), 0, ["friends", "1"]) == Reached(ReadBack(), Some(2))
  {
    BaseOk();
    assert StateOk(Base(), 1, 0, Root(Person)[0]);
    var read1 := [ReadBack()[0], CreateState(Some(0), Friends)];
    assert Get(Base(), Root(Person), 0, "friends") == Fetched(read1, DraftRef(1));
    assert Get(Base(), read1, 1, "1") == Fetched(ReadBack(), DraftRef(2));
    var path: seq<Key> := ["friends", "1"];
    assert path[1..] == ["1"] && path[1..][1..] == [];
    assert Walk(Base(), read1, 1, path[1..]) == Reached(ReadBack(), Some(2));
  }

  /** Reading the name, and walking the same path again, reuse the cached children and change nothing. */
  lemma WriteBackRead()
    ensures Shape(Base(), ReadBack())
    ensures Get(Base(), ReadBack(), 2, "name") == Fetched(ReadBack(), S("y"))
    ensures Walk(Base(), ReadBack(), 0, ["friends", "1"]) == Reached(ReadBack(), Some(2))
  {
    WriteBackWalk();
    var path: seq<Key> := ["friends", "1"];
    assert path[1..] == ["1"] && path[1..][1..] == [];
    assert Walk(Base(), ReadBack(), 1, path[1..]) == Reached(ReadBack(), Some(2));
  }

  /**
   Writing back the value a key already holds in the base is a no-op everywhere: the
   result is the base object itself.
   */
  lemma WriteBackResult()
    ensures StoreOk(Base()) && ScriptOk(Base(), WriteBack())
    ensures Produce(Base(), Person, WriteBack()) == Some(Plain(Obj(Person)))
  {
    BaseOk();
    WriteBackWalk();
    WriteBackRead();
    assert IsNoOp(Base(), ReadBack(), 2, "name", S("y"));
    assert WriteBack()[1..][1..] == [];
    assert Run(Base(), ReadBack(), WriteBack()[1..]) == Some(ReadBack());
    assert Run(Base(), Root(Person), WriteBack()) == Some(ReadBack());
  }

  /**
   `draft.name.length`: the name is a string, so the read leaves the drafts after one
   `get`; the rest reads the string itself, and the result is the base object.
   */
  lemma ReadPastDraftsResult()
    ensures StoreOk(Base()) && ScriptOk(Base(), [Load(["name"], "length")])
    ensures Produce(Base(), Person, [Load(["name"], "length")]) == Some(Plain(Obj(Person)))
  {
    BaseOk();
    assert StateOk(Base(), 1, 0, Root(Person)[0]);
    assert Get(Base(), Root(Person), 0, "name") == Fetched(Root(Person), S("Steve"));
    var path: seq<Key> := ["name"];
    assert Walk(Base(), Root(Person), 0, path) == Reached(Root(Person), None);
    assert [Load(["name"], "length")][1..] == [];
  }
}
