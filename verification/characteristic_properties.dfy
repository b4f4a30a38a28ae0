/**
 A model of the `TestCharacteristicProperties` helper class: a record of the nine
 boolean GATT characteristic-property flags, built from a list of flag names.
 The constructor starts with every flag false, sets the flag named by each list
 element in turn, and throws `Invalid member '<name>'` at the first element that
 is not one of the record's own fields.
 */
module CharacteristicProperties {
  import opened Wrappers

  /** The nine characteristic properties, in the order the constructor declares them. */
  datatype Flag =
    | Broadcast
    | Read
    | WriteWithoutResponse
    | Write
    | Notify
    | Indicate
    | AuthenticatedSignedWrites
    | ReliableWrite
    | WritableAuxiliaries

  /** The field name under which each flag is stored. */
  function FlagName(f: Flag): string {
    match f
    case Broadcast => "broadcast"
    case Read => "read"
    case WriteWithoutResponse => "writeWithoutResponse"
    case Write => "write"
    case Notify => "notify"
    case Indicate => "indicate"
    case AuthenticatedSignedWrites => "authenticatedSignedWrites"
    case ReliableWrite => "reliableWrite"
    case WritableAuxiliaries => "writableAuxiliaries"
  }

  /** The nine flags in declaration order. */
  const AllFlags: seq<Flag> := [Broadcast, Read, WriteWithoutResponse, Write, Notify,
                                Indicate, AuthenticatedSignedWrites, ReliableWrite,
                                WritableAuxiliaries]

  /** True when `s` is the name of one of the record's own fields. */
  predicate IsFlagName(s: string) {
    exists f :: FlagName(f) == s
  }

  /**
   The own-property lookup: the flag whose field is called `s`, if any. Inherited
   members such as "constructor" or "hasOwnProperty" are not own fields, so they
   map to None like any other unknown string.
   */
  function FlagOf(s: string): (r: Option<Flag>)
    ensures forall f :: r == Some(f) <==> FlagName(f) == s
    ensures r.None? <==> !IsFlagName(s)
  {
    if s == "broadcast" then Some(Broadcast)
    else if s == "read" then Some(Read)
    else if s == "writeWithoutResponse" then Some(WriteWithoutResponse)
    else if s == "write" then Some(Write)
    else if s == "notify" then Some(Notify)
    else if s == "indicate" then Some(Indicate)
    else if s == "authenticatedSignedWrites" then Some(AuthenticatedSignedWrites)
    else if s == "reliableWrite" then Some(ReliableWrite)
    else if s == "writableAuxiliaries" then Some(WritableAuxiliaries)
    else None
  }

  /** The property record, one field per flag. */
  datatype Props = Props(
    broadcast: bool,
    read: bool,
    writeWithoutResponse: bool,
    write: bool,
    notify: bool,
    indicate: bool,
    authenticatedSignedWrites: bool,
    reliableWrite: bool,
    writableAuxiliaries: bool)

  /** The record as it stands before the list is read: every flag false. */
  const AllFalse: Props := Props(false, false, false, false, false, false, false, false, false)

  /** Reads the field of `f`. */
  function Get(p: Props, f: Flag): bool {
    match f
    case Broadcast => p.broadcast
    case Read => p.read
    case WriteWithoutResponse => p.writeWithoutResponse
    case Write => p.write
    case Notify => p.notify
    case Indicate => p.indicate
    case AuthenticatedSignedWrites => p.authenticatedSignedWrites
    case ReliableWrite => p.reliableWrite
    case WritableAuxiliaries => p.writableAuxiliaries
  }

  /** Sets the field of `f` to true and leaves every other field alone. */
  function Set(p: Props, f: Flag): (q: Props)
    ensures Get(q, f)
    ensures forall g :: g != f ==> Get(q, g) == Get(p, g)
  {
    match f
    case Broadcast => p.(broadcast := true)
    case Read => p.(read := true)
    case WriteWithoutResponse => p.(writeWithoutResponse := true)
    case Write => p.(write := true)
    case Notify => p.(notify := true)
    case Indicate => p.(indicate := true)
    case AuthenticatedSignedWrites => p.(authenticatedSignedWrites := true)
    case ReliableWrite => p.(reliableWrite := true)
    case WritableAuxiliaries => p.(writableAuxiliaries := true)
  }

  /** A record is determined by the values of its nine flags. */
  lemma PropsExtensional(p: Props, q: Props)
    requires forall f :: Get(p, f) == Get(q, f)
    ensures p == q
  {
    assert Get(p, Broadcast) == Get(q, Broadcast);
    assert Get(p, Read) == Get(q, Read);
    assert Get(p, WriteWithoutResponse) == Get(q, WriteWithoutResponse);
    assert Get(p, Write) == Get(q, Write);
    assert Get(p, Notify) == Get(q, Notify);
    assert Get(p, Indicate) == Get(q, Indicate);
    assert Get(p, AuthenticatedSignedWrites) == Get(q, AuthenticatedSignedWrites);
    assert Get(p, ReliableWrite) == Get(q, ReliableWrite);
    assert Get(p, WritableAuxiliaries) == Get(q, WritableAuxiliaries);
  }

  /** The message thrown for a name that is not a flag. */
  function InvalidMember(name: string): string {
    "Invalid member '" + name + "'"
  }

  /** The thrown message names the offending element: distinct names give distinct messages. */
  lemma InvalidMemberInjective(a: string, b: string)
    requires InvalidMember(a) == InvalidMember(b)
    ensures a == b
  {
    var prefix := "Invalid member '";
    assert |a| == |b|;
    assert a == InvalidMember(a)[|prefix|..|prefix| + |a|];
    assert b == InvalidMember(b)[|prefix|..|prefix| + |b|];
  }

  /** Every element of `names` is a flag name. */
  predicate AllValid(names: seq<string>) {
    forall i :: 0 <= i < |names| ==> IsFlagName(names[i])
  }

  /** `names[i]` is the first element of `names` that is not a flag name. */
  predicate FirstInvalidAt(names: seq<string>, i: int) {
    && 0 <= i < |names|
    && !IsFlagName(names[i])
    && forall j :: 0 <= j < i ==> IsFlagName(names[j])
  }

  /**
   The `forEach` loop of the constructor, run from record `p` over `names`.
   It either sets every named flag on top of `p` or fails at the first bad name.
   */
  function Apply(p: Props, names: seq<string>): (r: Result<Props, string>)
    ensures r.Success? <==> AllValid(names)
    ensures r.Success? ==> forall f :: Get(r.value, f) <==> Get(p, f) || FlagName(f) in names
    ensures r.Failure? ==> exists i :: FirstInvalidAt(names, i) && r.error == InvalidMember(names[i])
    decreases |names|
  {
    if names == [] then Success(p)
    else
      match FlagOf(names[0])
      case None =>
        assert FirstInvalidAt(names, 0);
        Failure(InvalidMember(names[0]))
      case Some(f) =>
        var r := Apply(Set(p, f), names[1..]);
        assert names == [names[0]] + names[1..];
        assert r.Failure? ==> exists i :: FirstInvalidAt(names[1..], i) && r.error == InvalidMember(names[1..][i]);
        assert forall i :: FirstInvalidAt(names[1..], i) ==> FirstInvalidAt(names, i + 1);
        r
  }

  /** `new TestCharacteristicProperties(names)`. */
  function Build(names: seq<string>): (r: Result<Props, string>)
    ensures r.Success? <==> AllValid(names)
    ensures r.Success? ==> forall f :: Get(r.value, f) <==> FlagName(f) in names
    ensures r.Failure? ==> exists i :: FirstInvalidAt(names, i) && r.error == InvalidMember(names[i])
  {
    Apply(AllFalse, names)
  }

  /** The empty list gives the record with all nine flags false. */
  lemma BuildEmpty()
    ensures Build([]) == Success(AllFalse)
  {
    var r := Build([]);
    forall f ensures Get(r.value, f) == Get(AllFalse, f) {
    }
    PropsExtensional(r.value, AllFalse);
  }

  /** Failure names exactly the first bad element, in list order. */
  lemma BuildFailsAtFirstInvalid(names: seq<string>, i: int)
    requires FirstInvalidAt(names, i)
    ensures Build(names) == Failure(InvalidMember(names[i]))
  {
    var r := Build(names);
    var k :| FirstInvalidAt(names, k) && r.error == InvalidMember(names[k]);
    assert k == i;
  }

  /** Inherited members are not own fields, so `constructor` is rejected. */
  lemma InheritedMemberRejected()
    ensures Build(["constructor"]) == Failure("Invalid member 'constructor'")
  {
    assert FlagOf("constructor") == None;
    assert InvalidMember("constructor") == "Invalid member 'constructor'";
    BuildFailsAtFirstInvalid(["constructor"], 0);
  }

  /** Validity of a name list depends only on which names occur in it. */
  lemma SameNamesSameValidity(a: seq<string>, b: seq<string>)
    requires forall s :: s in a ==> s in b
    requires AllValid(b)
    ensures AllValid(a)
  {
    forall i | 0 <= i < |a| ensures IsFlagName(a[i]) {
      assert a[i] in b;
      var j :| 0 <= j < |b| && b[j] == a[i];
    }
  }

  /**
   Setting a flag is idempotent, so the result depends only on which names occur:
   lists with the same elements, repeated or reordered, build the same record.
   */
  lemma BuildDependsOnlyOnNameSet(a: seq<string>, b: seq<string>)
    requires forall s :: s in a <==> s in b
    ensures Build(a).Success? <==> Build(b).Success?
    ensures Build(a).Success? ==> Build(a) == Build(b)
  {
    if AllValid(a) {
      SameNamesSameValidity(b, a);
    }
    if AllValid(b) {
      SameNamesSameValidity(a, b);
    }
    if Build(a).Success? {
      PropsExtensional(Build(a).value, Build(b).value);
    }
  }

  /** The names of the flags set in `p`, in declaration order. */
  function NamesOf(p: Props): (names: seq<string>)
    ensures forall s :: s in names <==> exists f :: Get(p, f) && FlagName(f) == s
  {
    FilterNames(p, AllFlags)
  }

  /** The names of the flags in `fs` that are set in `p`. */
  function FilterNames(p: Props, fs: seq<Flag>): (names: seq<string>)
    ensures forall s :: s in names <==> exists f :: f in fs && Get(p, f) && FlagName(f) == s
  {
    if fs == [] then []
    else
      var rest := FilterNames(p, fs[1..]);
      assert forall f :: f in fs <==> f == fs[0] || f in fs[1..];
      if Get(p, fs[0]) then [FlagName(fs[0])] + rest else rest
  }

  /** Distinct flags are stored under distinct field names. */
  lemma FlagNameInjective(f: Flag, g: Flag)
    requires FlagName(f) == FlagName(g)
    ensures f == g
  {
    assert FlagOf(FlagName(f)) == Some(f);
  }

  /** The names of a record's set flags name exactly its set flags, and are all valid. */
  lemma NamesOfExact(p: Props)
    ensures AllValid(NamesOf(p))
    ensures forall f :: FlagName(f) in NamesOf(p) <==> Get(p, f)
  {
    var names := NamesOf(p);
    forall i | 0 <= i < |names| ensures IsFlagName(names[i]) {
      assert names[i] in names;
    }
    forall f ensures FlagName(f) in names <==> Get(p, f) {
      if FlagName(f) in names {
        var g :| Get(p, g) && FlagName(g) == FlagName(f);
        FlagNameInjective(f, g);
      }
    }
  }

  /** Every flag record can be produced by the constructor: from the names of its set flags. */
  lemma BuildNamesOf(p: Props)
    ensures Build(NamesOf(p)) == Success(p)
  {
    NamesOfExact(p);
    var r := Build(NamesOf(p));
    PropsExtensional(r.value, p);
  }
}
