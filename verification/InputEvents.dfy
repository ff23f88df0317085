/**
 One input event, its JSON converter, and the two packages that carry it:
 the keyboard_input payload and the typed envelope around it.
 */
module InputEvents {
  import opened Prelude
  import opened Json

  const ACTION_DOWN: Byte := 0
  const ACTION_UP: Byte := 1
  const ACTION_MOVE: Byte := 2
  const ACTION_SCROLL: Byte := 3
  const TYPE_KEY: Byte := 0
  const TYPE_MOUSE: Byte := 1

  /** Both enumerations are stored in a byte, so a decoded event may hold any byte there. */
  datatype InputEvent = InputEvent(kind: Byte, action: Byte, code: UInt16, dx: Int32, dy: Int32)

  const ZERO_EVENT: InputEvent := InputEvent(0, 0, 0, 0, 0)

  /** The exceptions raised when a field has the wrong JSON type, or does not fit a 64-bit integer. */
  datatype DecodeError = WrongType(key: string) | BeyondInt64(key: string)

  // ---------- Field access ----------

  /** Reads an `int` with default 0: absent means 0, and a wide integer is truncated. */
  function IntField(members: seq<Member>, key: string): Result<Int32, DecodeError> {
    match Lookup(members, key)
    case None => Success(0)
    case Some(Int(n)) =>
      if -TWO_TO_THE_63 <= n < TWO_TO_THE_64 then Success(Narrow32(n)) else Failure(BeyondInt64(key))
    case Some(_) => Failure(WrongType(key))
  }

  /** Reads a string with default "". */
  function StringField(members: seq<Member>, key: string): Result<string, DecodeError> {
    match Lookup(members, key)
    case None => Success("")
    case Some(Str(s)) => Success(s)
    case Some(_) => Failure(WrongType(key))
  }

  // ---------- One event ----------

  /** Keys are printed in the order of the library's sorted object map. */
  function EventMembers(e: InputEvent): seq<Member> {
    [ Member("action", Int(e.action)), Member("code", Int(e.code)), Member("dx", Int(e.dx)),
      Member("dy", Int(e.dy)), Member("type", Int(e.kind)) ]
  }

  /** Reads the five fields, narrowing each to the width it is stored in. */
  function EventOfMembers(members: seq<Member>): Result<InputEvent, DecodeError> {
    var kind :- IntField(members, "type");
    var action :- IntField(members, "action");
    var code :- IntField(members, "code");
    var dx :- IntField(members, "dx");
    var dy :- IntField(members, "dy");
    Success(InputEvent(kind % TWO_TO_THE_8, action % TWO_TO_THE_8, code % TWO_TO_THE_16, dx, dy))
  }

  function EncodeEvent(e: InputEvent): string {
    Dump(Obj(EventMembers(e)))
  }

  function DecodeEvent(s: string): Result<InputEvent, DecodeError> {
    match Parse(s)
    case Some(Obj(members)) => EventOfMembers(members)
    case _ => Success(ZERO_EVENT)
  }

  lemma LookupPrefix(members: seq<Member>, m: Member, key: string)
    ensures Lookup(members + [m], key) == if m.key == key then Some(m.value) else Lookup(members, key)
  {
    assert (members + [m])[..|members|] == members;
  }

  /** Every field of a printed event is found under its key, and no other key is. */
  lemma EventFields(e: InputEvent)
    ensures var ms := EventMembers(e);
            && Lookup(ms, "action") == Some(Int(e.action)) && Lookup(ms, "code") == Some(Int(e.code))
            && Lookup(ms, "dx") == Some(Int(e.dx)) && Lookup(ms, "dy") == Some(Int(e.dy))
            && Lookup(ms, "type") == Some(Int(e.kind)) && Lookup(ms, "delta") == None
  {
    var m0: seq<Member> := [];
    var m1 := m0 + [Member("action", Int(e.action))];
    var m2 := m1 + [Member("code", Int(e.code))];
    var m3 := m2 + [Member("dx", Int(e.dx))];
    var m4 := m3 + [Member("dy", Int(e.dy))];
    var m5 := m4 + [Member("type", Int(e.kind))];
    assert EventMembers(e) == m5;
    forall key: string
      ensures Lookup(m5, key) ==
              if key == "type" then Some(Int(e.kind)) else if key == "dy" then Some(Int(e.dy))
              else if key == "dx" then Some(Int(e.dx)) else if key == "code" then Some(Int(e.code))
              else if key == "action" then Some(Int(e.action)) else None
    {
      LookupPrefix(m0, Member("action", Int(e.action)), key);
      LookupPrefix(m1, Member("code", Int(e.code)), key);
      LookupPrefix(m2, Member("dx", Int(e.dx)), key);
      LookupPrefix(m3, Member("dy", Int(e.dy)), key);
      LookupPrefix(m4, Member("type", Int(e.kind)), key);
    }
    assert "delta" != "dx" && "delta" != "dy" && "delta" != "type" && "delta" != "code" && "delta" != "action";
  }

  lemma EventOfEventMembers(e: InputEvent)
    ensures EventOfMembers(EventMembers(e)) == Success(e)
  {
    EventFields(e);
  }

  /** For every event, decoding its JSON text gives the event back. */
  lemma EventRoundTrip(e: InputEvent)
    ensures DecodeEvent(EncodeEvent(e)) == Success(e)
  {
    ParseDump(Obj(EventMembers(e)));
    EventOfEventMembers(e);
  }

  // ---------- The typed envelope ----------

  datatype TypedPackage = TypedPackage(typename: string, payload: string)

  function PackageMembers(p: TypedPackage): seq<Member> {
    [Member("__typename", Str(p.typename)), Member("payload", Str(p.payload))]
  }

  function EncodePackage(p: TypedPackage): string {
    Dump(Obj(PackageMembers(p)))
  }

  /** A field is taken only when it is present and a string; decoding never fails. */
  function StringOrEmpty(members: seq<Member>, key: string): string {
    match Lookup(members, key)
    case Some(Str(s)) => s
    case _ => ""
  }

  function DecodePackage(s: string): TypedPackage {
    match Parse(s)
    case Some(Obj(members)) =>
      TypedPackage(StringOrEmpty(members, "__typename"), StringOrEmpty(members, "payload"))
    case _ => TypedPackage("", "")
  }

  /** For every envelope, whatever characters its two strings hold, decoding gives it back. */
  lemma PackageRoundTrip(p: TypedPackage)
    ensures DecodePackage(EncodePackage(p)) == p
  {
    var ms := PackageMembers(p);
    ParseDump(Obj(ms));
    var first := [Member("__typename", Str(p.typename))];
    assert ms == ([] + first) + [Member("payload", Str(p.payload))];
    LookupPrefix([], first[0], "__typename");
    LookupPrefix(first, ms[1], "__typename");
    LookupPrefix(first, ms[1], "payload");
    assert "payload" != "__typename";
    assert [] + first == first;
  }

  // ---------- The keyboard_input payload ----------

  const KEYBOARD_INPUT: string := "keyboard_input"

  function BuildKeyboardInput(e: InputEvent): TypedPackage {
    TypedPackage(KEYBOARD_INPUT, EncodeEvent(e))
  }

  predicate IsKeyboardInput(p: TypedPackage) {
    p.typename == KEYBOARD_INPUT
  }

  /** What goes on the wire for one event, and what the receiving side makes of a text. */
  function EventToWire(e: InputEvent): string {
    EncodePackage(BuildKeyboardInput(e))
  }

  function EventFromWire(text: string): Option<InputEvent> {
    var p := DecodePackage(text);
    if !IsKeyboardInput(p) then None
    else
      var e := DecodeEvent(p.payload);
      if e.Success? then Some(e.value) else None
  }

  /** Through both levels of JSON, every event arrives as it was sent. */
  lemma NestedRoundTrip(e: InputEvent)
    ensures DecodePackage(EventToWire(e)) == BuildKeyboardInput(e)
    ensures IsKeyboardInput(DecodePackage(EventToWire(e)))
    ensures DecodeEvent(DecodePackage(EventToWire(e)).payload) == Success(e)
    ensures EventFromWire(EventToWire(e)) == Some(e)
  {
    PackageRoundTrip(BuildKeyboardInput(e));
    EventRoundTrip(e);
  }

  /** Distinct events never share a wire text. */
  lemma WireIsInjective(e: InputEvent, f: InputEvent)
    requires EventToWire(e) == EventToWire(f)
    ensures e == f
  {
    NestedRoundTrip(e);
    NestedRoundTrip(f);
  }

  /** An envelope's two fields are found under their names. */
  lemma PackageFields(p: TypedPackage)
    ensures Lookup(PackageMembers(p), "__typename") == Some(Str(p.typename))
    ensures Lookup(PackageMembers(p), "payload") == Some(Str(p.payload))
  {
    var first, second := Member("__typename", Str(p.typename)), Member("payload", Str(p.payload));
    assert PackageMembers(p) == ([] + [first]) + [second];
    LookupPrefix([], first, "__typename");
    LookupPrefix([] + [first], second, "__typename");
    LookupPrefix([] + [first], second, "payload");
    assert |"payload"| != |"__typename"|;
  }

  // ---------- What decoding makes of any object ----------

  /** Absent, or an integer of 64 bits. */
  predicate Readable(members: seq<Member>, key: string) {
    var v := Lookup(members, key);
    v.None? || (v.value.Int? && -TWO_TO_THE_63 <= v.value.n < TWO_TO_THE_64)
  }

  function NumberAt(members: seq<Member>, key: string): int
    requires Readable(members, key)
  {
    var v := Lookup(members, key);
    if v.None? then 0 else v.value.n
  }

  /** An object decodes exactly when its five fields are readable, absent ones as 0, each narrowed to its width. */
  lemma DecodedFields(text: string, members: seq<Member>)
    requires Parse(text) == Some(Obj(members))
    ensures DecodeEvent(text).Success? <==>
            && Readable(members, "type") && Readable(members, "action") && Readable(members, "code")
            && Readable(members, "dx") && Readable(members, "dy")
    ensures DecodeEvent(text).Success? ==>
              var e := DecodeEvent(text).value;
              && (NumberAt(members, "type") - e.kind) % 0x100 == 0
              && (NumberAt(members, "action") - e.action) % 0x100 == 0
              && (NumberAt(members, "code") - e.code) % 0x1_0000 == 0
              && (NumberAt(members, "dx") - e.dx) % 0x1_0000_0000 == 0
              && (NumberAt(members, "dy") - e.dy) % 0x1_0000_0000 == 0
  {
    FieldRead(members, "type");
    FieldRead(members, "action");
    FieldRead(members, "code");
    FieldRead(members, "dx");
    FieldRead(members, "dy");
  }

  lemma FieldRead(members: seq<Member>, key: string)
    ensures Readable(members, key) <==> IntField(members, key).Success?
    ensures Readable(members, key) ==>
              var n, v := NumberAt(members, key), IntField(members, key).value;
              (n - v) % 0x1_0000_0000 == 0 && (n - v % 0x100) % 0x100 == 0 && (n - v % 0x1_0000) % 0x1_0000 == 0
  {
    if Readable(members, key) {
      NarrowAgain(NumberAt(members, key), IntField(members, key).value);
    }
  }

  /** Numbers that agree modulo 2^32 agree modulo 2^8 and 2^16. */
  lemma NarrowAgain(n: int, v: int)
    requires (n - v) % 0x1_0000_0000 == 0
    ensures (n - v % 0x100) % 0x100 == 0 && (n - v % 0x1_0000) % 0x1_0000 == 0
  {
    var q := (n - v) / 0x1_0000_0000;
    assert n - v % 0x100 == 0x100 * (v / 0x100 + 0x100_0000 * q);
    assert n - v % 0x1_0000 == 0x1_0000 * (v / 0x1_0000 + 0x1_0000 * q);
  }

  /** Anything that is not an object decodes to the zero event and the empty envelope. */
  lemma NotAnObject(text: string)
    requires Parse(text).None? || !Parse(text).value.Obj?
    ensures DecodeEvent(text) == Success(InputEvent(0, 0, 0, 0, 0))
    ensures DecodePackage(text) == TypedPackage("", "")
  {
  }

  /** The numbers of the enumerations, and the name of the payload, as they go on the wire. */
  lemma WireNumbers()
    ensures ACTION_DOWN == 0 && ACTION_UP == 1 && ACTION_MOVE == 2 && ACTION_SCROLL == 3
    ensures TYPE_KEY == 0 && TYPE_MOUSE == 1 && KEYBOARD_INPUT == "keyboard_input"
  {
  }
}
