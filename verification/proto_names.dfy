/** What the names in a generated file denote.  The types of the file are nested by the components of their
    names, and a name is looked for from the message it is printed in outwards, as Protocol Buffers does. */
module ProtoNames {
  import opened Common
  import opened ProtoResolve
  import opened ProtoCopy

  // ---------------------------------------------------------------- the file that is written

  /** The length of the first component of a name. */
  function FirstDot(name: string): (n: nat)
    ensures n <= |name| && '.' !in name[..n] && (n < |name| ==> name[n] == '.')
  {
    if name == "" || name[0] == '.' then 0 else 1 + FirstDot(name[1..])
  }

  /** getNestedPath: the components of a name between its dots. */
  function Split(name: string): (path: seq<string>)
    ensures path != []
    decreases |name|
  {
    var n := FirstDot(name);
    if n == |name| then [name] else [name[..n]] + Split(name[n + 1..])
  }

  function Join(path: seq<string>): string
    requires path != []
  {
    if |path| == 1 then path[0] else path[0] + "." + Join(path[1..])
  }

  lemma {:induction false} JoinSplit(name: string)
    ensures Join(Split(name)) == name
    decreases |name|
  {
    var n := FirstDot(name);
    if n < |name| {
      JoinSplit(name[n + 1..]);
      assert Split(name)[1..] == Split(name[n + 1..]);
      assert name[..n] + "." + name[n + 1..] == name;
    }
  }

  /** Names with the same components are the same. */
  lemma SplitIsInjective(a: string, b: string)
    requires Split(a) == Split(b)
    ensures a == b
  {
    JoinSplit(a);
    JoinSplit(b);
  }

  lemma FirstDotIs(name: string, n: nat)
    requires n < |name| && name[n] == '.' && '.' !in name[..n]
    ensures FirstDot(name) == n
  {
    var m := FirstDot(name);
  }

  lemma {:induction false} SplitDotted(a: string, b: string)
    ensures Split(a + "." + b) == Split(a) + Split(b)
    decreases |a|
  {
    var n, whole := FirstDot(a), a + "." + b;
    DottedFirst(a, b);
    if n < |a| {
      SplitDotted(a[n + 1..], b);
      Regrouped([a[..n]], Split(a[n + 1..]), Split(b));
      assert Split(whole) == [a[..n]] + Split(a[n + 1..] + "." + b);
    } else {
      assert a[..n] == a;
      assert Split(whole) == [a] + Split(b);
    }
  }

  lemma DottedFirst(a: string, b: string)
    ensures var n, whole := FirstDot(a), a + "." + b;
            && FirstDot(whole) == n < |whole| && whole[..n] == a[..n]
            && (n == |a| ==> whole[n + 1..] == b)
            && (n < |a| ==> whole[n + 1..] == a[n + 1..] + "." + b)
  {
    var n, whole := FirstDot(a), a + "." + b;
    assert whole[..n] == a[..n];
    assert whole[n] == '.';
    FirstDotIs(whole, n);
    if n < |a| { DropDotted(a, b, n + 1); }
  }

  lemma DropDotted(a: string, b: string, n: nat)
    requires n <= |a|
    ensures (a + "." + b)[n..] == a[n..] + "." + b
  {
  }

  lemma Regrouped(a: seq<string>, b: seq<string>, c: seq<string>)
    ensures a + (b + c) == a + b + c
  {
  }

  /** The message that stands for an entry of the map field `name`, capitalised without its underscores. */
  function Capitalised(name: string, capital: bool): string {
    if name == "" then ""
    else if name[0] == '_' then Capitalised(name[1..], true)
    else
      [if capital && 'a' <= name[0] <= 'z' then (name[0] as int - 32) as char else name[0]]
      + Capitalised(name[1..], false)
  }

  function EntryName(name: string): string { Capitalised(name, true) + "Entry" }

  /** The definitions a file is written from. */
  datatype Shape = Shape(messages: set<Message>, enums: set<TypeName>)

  function ShapeOf(file: File): Shape {
    Shape(set m | m in file.messages, set e | e in file.enums :: e.typeName)
  }

  predicate IsEntry(m: Message, path: seq<string>) {
    exists f :: f in m.fields && f.inMap && path == Split(m.typeName.short) + [EntryName(f.name)]
  }

  /** The type tree has a node at the path: a definition, a message around one, or the entry of a map. */
  predicate HasNode(sh: Shape, path: seq<string>) {
    || (exists m :: m in sh.messages && path <= Split(m.typeName.short))
    || (exists e :: e in sh.enums && path <= Split(e.short))
    || (exists m :: m in sh.messages && IsEntry(m, path))
  }

  predicate HasEnum(sh: Shape, path: seq<string>) { exists e :: e in sh.enums && Split(e.short) == path }

  /** writeTypeTree goes down through messages only: an enum is written without what is nested in it. */
  predicate Reached(sh: Shape, path: seq<string>) {
    forall n :: 0 <= n < |path| ==> !HasEnum(sh, path[..n])
  }

  predicate Seen(sh: Shape, path: seq<string>) { HasNode(sh, path) && Reached(sh, path) }

  lemma SeenAbove(sh: Shape, path: seq<string>, n: nat)
    requires Seen(sh, path) && n <= |path|
    ensures Seen(sh, path[..n])
  {
    if m :| m in sh.messages && path <= Split(m.typeName.short) {
      assert path[..n] <= Split(m.typeName.short);
    } else if e :| e in sh.enums && path <= Split(e.short) {
      assert path[..n] <= Split(e.short);
    } else if n < |path| {
      var m :| m in sh.messages && IsEntry(m, path);
      assert path[..|path| - 1] == Split(m.typeName.short);
      assert path[..n] == path[..|path| - 1][..n];
      assert path[..n] <= Split(m.typeName.short);
    } else {
      assert path[..n] == path;
    }
    forall k | 0 <= k < |path[..n]| ensures !HasEnum(sh, path[..n][..k]) {
      assert path[..n][..k] == path[..k];
    }
  }

  // ---------------------------------------------------------------- what a name denotes in it

  /** The scope a name is printed in: the message around it, or the whole file. */
  function ScopeOf(u: Use): seq<string> { if u.parent == "" then [] else Split(u.parent) }

  function NameOf(p: Printed): (path: seq<string>)
    ensures path != []
  {
    match p
    case Token(ref) => Split(ref)
    case Relative(suffix) => Split(suffix)
    case Short(short) => Split(short)
    case Full(name) => Split(name.pkg + "." + name.short)
  }

  /** Protocol Buffers looks for the first component of a name in the innermost message, and then further
      and further out. */
  function Innermost(sh: Shape, scope: seq<string>, first: string): Option<nat> {
    Outwards(sh, scope, first, |scope|)
  }

  predicate StandsIn(sh: Shape, scope: seq<string>, n: nat, first: string)
    requires n <= |scope|
  {
    Seen(sh, scope[..n] + [first])
  }

  function Outwards(sh: Shape, scope: seq<string>, first: string, n: nat): (found: Option<nat>)
    requires n <= |scope|
    ensures found.Some? ==> found.value <= n && StandsIn(sh, scope, found.value, first)
    ensures forall k :: (if found.Some? then found.value else -1) < k <= n ==> !StandsIn(sh, scope, k, first)
  {
    if StandsIn(sh, scope, n, first) then Some(n)
    else if n == 0 then None
    else Outwards(sh, scope, first, n - 1)
  }

  /** The rest of the name must be there: the search does not go on behind its first component. */
  function Denoted(sh: Shape, scope: seq<string>, name: seq<string>): Option<seq<string>>
    requires name != []
  {
    match Innermost(sh, scope, name[0])
    case None => None
    case Some(n) => if Seen(sh, scope[..n] + name) then Some(scope[..n] + name) else None
  }

  function Meaning(file: File, u: Use, p: Printed): Option<seq<string>> {
    Denoted(ShapeOf(file), ScopeOf(u), NameOf(p))
  }

  /** Behind the file the search goes on through the packages around it, and stops at one of that name. */
  predicate InPackage(pkg: string, first: string) {
    exists n :: 1 <= n < |Split(pkg)| && Split(pkg)[n] == first
  }

  /** Inside the file the printed name denotes the type it resolves to, and a definition of that type is
      there.  A name with its package must not begin like anything nearer; an unresolved one is reported. */
  ghost predicate Faithful(c: Corpus, file: File, copied: map<string, Origin>, u: Use) {
    var p := Print(c, copied, u);
    match p
    case Token(_) => true
    case Full(_) => Innermost(ShapeOf(file), ScopeOf(u), NameOf(p)[0]).None? && !InPackage(c.pkg, NameOf(p)[0])
    case _ => Defines(file, c.resolve(u.at).value) && Meaning(file, u, p) == Some(Split(c.resolve(u.at).value.short))
  }

  /** The printed name denotes something in the file that is not the type the reference resolves to. */
  ghost predicate Misprinted(c: Corpus, file: File, copied: map<string, Origin>, u: Use) {
    && c.resolve(u.at).Some? && Meaning(file, u, Print(c, copied, u)).Some? && !Faithful(c, file, copied, u)
  }

  /** Two types of one short name: one used, the other defined by the package or used from elsewhere. */
  ghost predicate Clash(c: Corpus, own: File, uses: seq<Use>) {
    exists u, d :: u in uses && c.resolve(u.at).Some? && Collides(c, own, uses, c.resolve(u.at).value, d)
  }

  ghost predicate Collides(c: Corpus, own: File, uses: seq<Use>, t: TypeName, d: TypeName) {
    d.short == t.short && d != t && (Defines(own, d) || Wanted(c, uses, d))
  }

  /** Another node takes a name without package on the way out to the file: one nested in a message around
      the use.  A relative name is looked up where it belongs first, a package's name last of all. */
  predicate Captured(pkg: string, sh: Shape, u: Use, p: Printed) {
    || (p.Full? && InPackage(pkg, NameOf(p)[0]))
    || exists n :: (if p.Full? then 0 else 1) <= n <= |ScopeOf(u)| && (p.Short? || p.Full?)
                   && StandsIn(sh, ScopeOf(u), n, NameOf(p)[0])
  }

  /** Where in the scope the type itself would be found. */
  function Home(u: Use, p: Printed): int {
    match p
    case Relative(_) => |ScopeOf(u)|
    case Short(_) => 0
    case _ => -1
  }

  lemma PrintedIsAtHome(c: Corpus, copied: map<string, Origin>, u: Use, t: TypeName)
    requires c.resolve(u.at) == Some(t)
    ensures var p := Print(c, copied, u);
            p.Short? || p.Relative? ==> ScopeOf(u)[..Home(u, p)] + NameOf(p) == Split(t.short)
  {
    var p := Print(c, copied, u);
    if p.Relative? {
      assert u.parent + "." + p.suffix == t.short;
      RelativeIsAtHome(u, p.suffix);
    }
  }

  lemma RelativeIsAtHome(u: Use, suffix: string)
    requires u.parent != ""
    ensures ScopeOf(u)[..Home(u, Relative(suffix))] + Split(suffix) == Split(u.parent + "." + suffix)
  {
    SplitDotted(u.parent, suffix);
    assert ScopeOf(u)[..|ScopeOf(u)|] == Split(u.parent);
  }

  /** A type nested in the message that uses it is printed from there on, and no other. */
  lemma NestedIsPrintedShort(c: Corpus, copied: map<string, Origin>, u: Use, t: TypeName, suffix: string)
    requires c.resolve(u.at) == Some(t)
    ensures Print(c, copied, u) == Relative(suffix) <==> u.parent != "" && t.short == u.parent + "." + suffix
  {
    var p := Print(c, copied, u);
    if p.Relative? { assert t.short == u.parent + "." + p.suffix; }
    if t.short == u.parent + "." + suffix {
      assert u.parent + "." <= t.short;
      assert t.short[|u.parent| + 1..] == suffix;
    }
  }

  lemma FirstIsSeen(sh: Shape, scope: seq<string>, name: seq<string>)
    requires name != [] && Seen(sh, scope + name)
    ensures Seen(sh, scope + [name[0]])
  {
    SeenAbove(sh, scope + name, |scope| + 1);
    assert (scope + name)[..|scope| + 1] == scope + [name[0]];
  }

  lemma FoundAt(sh: Shape, scope: seq<string>, name: seq<string>, n: nat)
    requires name != [] && n <= |scope| && Seen(sh, scope[..n] + name)
    requires forall k :: n < k <= |scope| ==> !StandsIn(sh, scope, k, name[0])
    ensures Denoted(sh, scope, name) == Some(scope[..n] + name)
  {
    FirstIsSeen(sh, scope[..n], name);
    assert StandsIn(sh, scope, n, name[0]);
    assert Innermost(sh, scope, name[0]) == Some(n);
  }

  /** A name without package denotes its type exactly if that is written and nothing captures the name; a
      name with package leaves the file exactly if nothing captures it. */
  lemma PrintedMeans(c: Corpus, file: File, copied: map<string, Origin>, u: Use, t: TypeName)
    requires c.resolve(u.at) == Some(t)
    ensures var sh, p := ShapeOf(file), Print(c, copied, u);
            && (p.Short? || p.Relative?
                ==> (Meaning(file, u, p) == Some(Split(t.short))
                     <==> Seen(sh, Split(t.short)) && !Captured(c.pkg, sh, u, p)))
            && (p.Full? ==> (Faithful(c, file, copied, u) <==> !Captured(c.pkg, sh, u, p)))
  {
    var sh, p := ShapeOf(file), Print(c, copied, u);
    var scope, name := ScopeOf(u), NameOf(p);
    if p.Short? || p.Relative? {
      PrintedIsAtHome(c, copied, u, t);
      var found := Innermost(sh, scope, name[0]);
      if Meaning(file, u, p) == Some(Split(t.short)) {
        assert |scope[..found.value] + name| == |scope[..Home(u, p)] + name|;
      }
      if Seen(sh, Split(t.short)) && !Captured(c.pkg, sh, u, p) { FoundAt(sh, scope, name, Home(u, p)); }
    }
  }

  /** A type the file can define: the package defines it, or it is known elsewhere. */
  ghost predicate Definable(c: Corpus, own: File, t: TypeName) {
    Defines(own, t) || (Foreign(c.pkg, t) && Known(c, t))
  }

  /** What the file defines is what is recorded for its short name. */
  lemma DefinedIsRecorded(c: Corpus, own: File, file: File, copied: map<string, Origin>, t: TypeName)
    requires WellFormed(c, own) && Built(c, own, file, copied) && Defines(file, t)
    ensures t.short in copied && copied[t.short].name == t
    ensures Definable(c, own, t)
  {
    if m :| m in file.messages && m.typeName == t {
      var i :| 0 <= i < |file.messages| && file.messages[i] == m;
      if i < |own.messages| {
        OwnIsRecorded(c, own, file, copied, t, own.messages[i]);
      } else {
        assert CopiedMessage(c, file, i);
      }
    } else {
      var e :| e in file.enums && e.typeName == t;
      var i :| 0 <= i < |file.enums| && file.enums[i] == e;
      if i < |own.enums| {
        assert own.enums[i] in own.enums && Defines(own, t);
        OwnNameIsRecorded(c, own, file, copied, t);
      } else {
        assert CopiedEnum(c, file, i);
      }
    }
  }

  lemma OwnIsRecorded(c: Corpus, own: File, file: File, copied: map<string, Origin>, t: TypeName, m: Message)
    requires WellFormed(c, own) && Recorded(c, own, file, copied) && m in own.messages && m.typeName == t
    ensures Defines(own, t) && t.short in copied && copied[t.short].name == t
  {
    OwnNameIsRecorded(c, own, file, copied, t);
  }

  lemma OwnNameIsRecorded(c: Corpus, own: File, file: File, copied: map<string, Origin>, t: TypeName)
    requires WellFormed(c, own) && Recorded(c, own, file, copied) && Defines(own, t)
    ensures t.short in copied && copied[t.short].name == t
  {
    assert forall x :: Defines(own, x) ==> x.pkg == c.pkg;
    assert copied[t.short].Own? && Defines(own, copied[t.short].name);
  }

  /** Without a clash, what is used and can be defined is defined. */
  lemma UsedIsDefined(c: Corpus, own: File, file: File, copied: map<string, Origin>, u: Use, t: TypeName)
    requires WellFormed(c, own) && Built(c, own, file, copied) && Closed(c, file, copied)
    requires u in Uses(c.pkg, file.messages, file.services) && c.resolve(u.at) == Some(t)
    requires !Clash(c, own, Uses(c.pkg, file.messages, file.services)) && Definable(c, own, t)
    ensures Defines(file, t)
  {
    var uses := Uses(c.pkg, file.messages, file.services);
    if Defines(own, t) {
      MoreDefines(own, t, file);
    } else {
      assert Wants(c, u, t);
      var name := copied[t.short].name;
      assert name == t || Collides(c, own, uses, t, name);
      assert copied[t.short] == Copied(t);
    }
  }

  /** Some use finds its short name recorded for another type exactly when two types share a short name. */
  lemma RecordedForAnotherIff(c: Corpus, own: File, file: File, copied: map<string, Origin>)
    requires WellFormed(c, own) && Built(c, own, file, copied) && Closed(c, file, copied)
    ensures var uses := Uses(c.pkg, file.messages, file.services);
            (exists u :: u in uses && ForAnother(c, copied, u)) <==> Clash(c, own, uses)
  {
    var uses := Uses(c.pkg, file.messages, file.services);
    if u :| u in uses && ForAnother(c, copied, u) {
      var t := c.resolve(u.at).value;
      assert Collides(c, own, uses, t, copied[t.short].name);
    }
    if Clash(c, own, uses) {
      var u, d :| u in uses && c.resolve(u.at).Some? && Collides(c, own, uses, c.resolve(u.at).value, d);
      var t := c.resolve(u.at).value;
      assert t.short in copied;
      if copied[t.short].name == t {
        assert forall x :: Defines(own, x) ==> x.pkg == c.pkg;
        var other :| other in uses && Wants(c, other, d);
        assert ForAnother(c, copied, other);
      } else {
        assert ForAnother(c, copied, u);
      }
    }
  }

  predicate ForAnother(c: Corpus, copied: map<string, Origin>, u: Use) {
    && c.resolve(u.at).Some? && c.resolve(u.at).value.short in copied
    && copied[c.resolve(u.at).value.short].name != c.resolve(u.at).value
  }

  /** Such a name has no package, and its type no definition in the file. */
  lemma ForAnotherIsUnfaithful(c: Corpus, own: File, file: File, copied: map<string, Origin>, u: Use)
    requires WellFormed(c, own) && Built(c, own, file, copied) && ForAnother(c, copied, u)
    ensures !Faithful(c, file, copied, u)
  {
    var t := c.resolve(u.at).value;
    if Defines(file, t) { DefinedIsRecorded(c, own, file, copied, t); }
  }

  // ---------------------------------------------------------------- the definitions of the file

  /** The own definitions, and those known of the foreign types that are used. */
  ghost function Expected(c: Corpus, own: File, uses: seq<Use>): Shape {
    Shape((set m | m in own.messages) + (set t | t in c.messages && Wanted(c, uses, t) :: c.messages[t].(pkg := c.pkg)),
          (set e | e in own.enums :: e.typeName) + (set t | t in c.enums && t !in c.messages && Wanted(c, uses, t)))
  }

  lemma MessagesAreExpected(c: Corpus, own: File, file: File, m: Message)
    requires WellFormed(c, own) && Traced(c, own, file) && m in file.messages
    ensures m in Expected(c, own, Uses(c.pkg, file.messages, file.services)).messages
  {
    var i :| 0 <= i < |file.messages| && file.messages[i] == m;
    if i >= |own.messages| {
      assert CopiedMessage(c, file, i);
      LaterUsesWant(c, file.messages, file.services, i, m.typeName);
    }
  }

  lemma EnumsAreExpected(c: Corpus, own: File, file: File, e: Enum)
    requires WellFormed(c, own) && Traced(c, own, file) && e in file.enums
    ensures e.typeName in Expected(c, own, Uses(c.pkg, file.messages, file.services)).enums
  {
    var i :| 0 <= i < |file.enums| && file.enums[i] == e;
    if i < |own.enums| {
      assert own.enums[i] == e;
    } else {
      assert CopiedEnum(c, file, i);
    }
  }

  /** A definition of a foreign type is a copy of what is known of it. */
  lemma WantedIsCopied(c: Corpus, own: File, file: File, copied: map<string, Origin>, t: TypeName)
    requires WellFormed(c, own) && Built(c, own, file, copied) && Closed(c, file, copied)
    requires Wanted(c, Uses(c.pkg, file.messages, file.services), t) && Known(c, t)
    requires !Clash(c, own, Uses(c.pkg, file.messages, file.services))
    ensures t in c.messages ==> c.messages[t].(pkg := c.pkg) in file.messages
    ensures t !in c.messages ==> exists e :: e in file.enums && e.typeName == t
  {
    var u :| u in Uses(c.pkg, file.messages, file.services) && Wants(c, u, t);
    UsedIsDefined(c, own, file, copied, u, t);
    ForeignIsCopied(c, own, file, t);
  }

  lemma ForeignIsCopied(c: Corpus, own: File, file: File, t: TypeName)
    requires WellFormed(c, own) && Traced(c, own, file) && t.pkg != c.pkg && Defines(file, t)
    ensures t in c.messages ==> c.messages[t].(pkg := c.pkg) in file.messages
    ensures t !in c.messages ==> exists e :: e in file.enums && e.typeName == t
  {
    if m :| m in file.messages && m.typeName == t {
      var i :| 0 <= i < |file.messages| && file.messages[i] == m;
      assert i >= |own.messages| && CopiedMessage(c, file, i);
    } else {
      var e :| e in file.enums && e.typeName == t;
      var i :| 0 <= i < |file.enums| && file.enums[i] == e;
      assert i >= |own.enums| && CopiedEnum(c, file, i);
    }
  }

  /** Without a clash the file defines what its uses make expect, in whatever order it was copied. */
  lemma ShapeIsExpected(c: Corpus, own: File, file: File, copied: map<string, Origin>)
    requires WellFormed(c, own) && Built(c, own, file, copied) && Closed(c, file, copied)
    requires !Clash(c, own, Uses(c.pkg, file.messages, file.services))
    ensures ShapeOf(file) == Expected(c, own, Uses(c.pkg, file.messages, file.services))
  {
    var uses := Uses(c.pkg, file.messages, file.services);
    var sh, expected := ShapeOf(file), Expected(c, own, uses);
    forall m | m in sh.messages ensures m in expected.messages { MessagesAreExpected(c, own, file, m); }
    forall t | t in sh.enums ensures t in expected.enums {
      var e :| e in file.enums && e.typeName == t;
      EnumsAreExpected(c, own, file, e);
    }
    forall m | m in expected.messages ensures m in sh.messages {
      if m !in own.messages {
        var t :| t in c.messages && Wanted(c, uses, t) && m == c.messages[t].(pkg := c.pkg);
        WantedIsCopied(c, own, file, copied, t);
      }
    }
    forall t | t in expected.enums ensures t in sh.enums {
      if e :| e in own.enums && e.typeName == t {
        assert e in file.enums;
      } else {
        WantedIsCopied(c, own, file, copied, t);
      }
    }
  }

  /** An enum stands where a message is defined, or above a definition, which is then not written. */
  predicate Buried(sh: Shape) {
    exists e :: e in sh.enums && Buries(sh, e)
  }

  predicate Buries(sh: Shape, e: TypeName) {
    || (exists m :: m in sh.messages && Split(e.short) <= Split(m.typeName.short))
    || (exists other :: other in sh.enums && Split(e.short) < Split(other.short))
  }

  predicate AllWritten(sh: Shape) {
    && (forall m :: m in sh.messages ==> Reached(sh, Split(m.typeName.short)) && !HasEnum(sh, Split(m.typeName.short)))
    && (forall e :: e in sh.enums ==> Reached(sh, Split(e.short)))
  }

  lemma AllWrittenIff(sh: Shape)
    ensures AllWritten(sh) <==> !Buried(sh)
  {
    if e :| e in sh.enums && Buries(sh, e) {
      var path := Split(e.short);
      assert HasEnum(sh, path);
      if m :| m in sh.messages && path <= Split(m.typeName.short) {
        assert Split(m.typeName.short)[..|path|] == path;
      } else {
        var other :| other in sh.enums && path < Split(other.short);
        assert Split(other.short)[..|path|] == path;
      }
    }
    if !Buried(sh) {
      forall m | m in sh.messages
        ensures Reached(sh, Split(m.typeName.short)) && !HasEnum(sh, Split(m.typeName.short))
      {
        forall e | e in sh.enums ensures !(Split(e.short) <= Split(m.typeName.short)) { assert !Buries(sh, e); }
      }
      forall other | other in sh.enums ensures Reached(sh, Split(other.short)) {
        forall e | e in sh.enums ensures !(Split(e.short) < Split(other.short)) { assert !Buries(sh, e); }
      }
    }
  }

  lemma DefinedIsSeen(file: File, t: TypeName)
    requires Defines(file, t) && AllWritten(ShapeOf(file))
    ensures Seen(ShapeOf(file), Split(t.short))
  {
    var sh := ShapeOf(file);
    if m :| m in file.messages && m.typeName == t {
      assert m in sh.messages;
    } else {
      assert t in sh.enums;
    }
  }

  // ---------------------------------------------------------------- when the names are right

  /** Every definition is written, and every printed name denotes the type it stands for. */
  ghost predicate FileIsFaithful(c: Corpus, file: File, copied: map<string, Origin>) {
    && AllWritten(ShapeOf(file))
    && forall u :: u in Uses(c.pkg, file.messages, file.services) ==> Faithful(c, file, copied, u)
  }

  /** Every type that is printed without a package can be defined. */
  ghost predicate AllDefinable(c: Corpus, own: File, uses: seq<Use>, copied: map<string, Origin>) {
    forall u :: u in uses && (Print(c, copied, u).Short? || Print(c, copied, u).Relative?)
                ==> Definable(c, own, c.resolve(u.at).value)
  }

  ghost predicate NoneCaptured(c: Corpus, sh: Shape, uses: seq<Use>, copied: map<string, Origin>) {
    forall u :: u in uses && c.resolve(u.at).Some? ==> !Captured(c.pkg, sh, u, Print(c, copied, u))
  }

  lemma FaithfulMeans(c: Corpus, own: File, file: File, copied: map<string, Origin>)
    requires WellFormed(c, own) && Built(c, own, file, copied) && Closed(c, file, copied)
    requires FileIsFaithful(c, file, copied)
    ensures var uses := Uses(c.pkg, file.messages, file.services);
            && !Clash(c, own, uses) && AllDefinable(c, own, uses, copied)
            && NoneCaptured(c, ShapeOf(file), uses, copied)
  {
    var uses := Uses(c.pkg, file.messages, file.services);
    RecordedForAnotherIff(c, own, file, copied);
    forall u | u in uses ensures !ForAnother(c, copied, u) {
      if ForAnother(c, copied, u) { ForAnotherIsUnfaithful(c, own, file, copied, u); }
    }
    forall u | u in uses && (Print(c, copied, u).Short? || Print(c, copied, u).Relative?)
      ensures Definable(c, own, c.resolve(u.at).value)
    {
      DefinedIsRecorded(c, own, file, copied, c.resolve(u.at).value);
    }
    forall u | u in uses && c.resolve(u.at).Some? ensures !Captured(c.pkg, ShapeOf(file), u, Print(c, copied, u)) {
      PrintedMeans(c, file, copied, u, c.resolve(u.at).value);
    }
  }

  lemma UseIsFaithful(c: Corpus, own: File, file: File, copied: map<string, Origin>, u: Use)
    requires WellFormed(c, own) && Built(c, own, file, copied) && Closed(c, file, copied)
    requires u in Uses(c.pkg, file.messages, file.services) && AllWritten(ShapeOf(file))
    requires var uses := Uses(c.pkg, file.messages, file.services);
             && !Clash(c, own, uses) && AllDefinable(c, own, uses, copied)
             && NoneCaptured(c, ShapeOf(file), uses, copied)
    ensures Faithful(c, file, copied, u)
  {
    if c.resolve(u.at).Some? {
      var t, p := c.resolve(u.at).value, Print(c, copied, u);
      PrintedMeans(c, file, copied, u, t);
      if p.Short? || p.Relative? {
        UsedIsDefined(c, own, file, copied, u, t);
        DefinedIsSeen(file, t);
      }
    }
  }

  /** Every definition is written and every printed name denotes the type it stands for, exactly when no two
      types share a short name, every type printed without a package can be defined, no enum's name is that of
      a message or of something around a type, and nothing nested captures a name. */
  lemma NamesAreFaithfulIff(c: Corpus, own: File, file: File, copied: map<string, Origin>)
    requires WellFormed(c, own) && Built(c, own, file, copied) && Closed(c, file, copied)
    ensures var uses := Uses(c.pkg, file.messages, file.services);
            var expected := Expected(c, own, uses);
            FileIsFaithful(c, file, copied)
            <==> && !Clash(c, own, uses) && AllDefinable(c, own, uses, copied)
                 && !Buried(expected) && NoneCaptured(c, expected, uses, copied)
  {
    var uses := Uses(c.pkg, file.messages, file.services);
    AllWrittenIff(ShapeOf(file));
    if FileIsFaithful(c, file, copied) { FaithfulMeans(c, own, file, copied); }
    if !Clash(c, own, uses) { ShapeIsExpected(c, own, file, copied); }
    if !Clash(c, own, uses) && AllDefinable(c, own, uses, copied)
       && !Buried(ShapeOf(file)) && NoneCaptured(c, ShapeOf(file), uses, copied) {
      forall u | u in uses ensures Faithful(c, file, copied, u) { UseIsFaithful(c, own, file, copied, u); }
    }
  }

  /** The search stops at message `n` of the scope, where it should not, and finds the name there. */
  predicate Caught(sh: Shape, u: Use, p: Printed, n: nat) {
    && n <= |ScopeOf(u)| && n != Home(u, p) && Seen(sh, ScopeOf(u)[..n] + NameOf(p))
    && forall k :: n < k <= |ScopeOf(u)| ==> !StandsIn(sh, ScopeOf(u), k, NameOf(p)[0])
  }

  /** Something else stands where the type should. */
  ghost predicate Replaced(c: Corpus, file: File, u: Use, p: Printed, t: TypeName) {
    && (p.Short? || p.Relative?) && !Captured(c.pkg, ShapeOf(file), u, p)
    && Seen(ShapeOf(file), Split(t.short)) && !Defines(file, t)
  }

  lemma CaughtIsFound(sh: Shape, u: Use, p: Printed, n: nat)
    requires Caught(sh, u, p, n)
    ensures Denoted(sh, ScopeOf(u), NameOf(p)) == Some(ScopeOf(u)[..n] + NameOf(p))
    ensures |ScopeOf(u)[..n] + NameOf(p)| == n + |NameOf(p)|
  {
    FoundAt(sh, ScopeOf(u), NameOf(p), n);
  }

  /** Where the name leads: to the home of its type, or it is caught. */
  lemma FoundIsHomeOrCaught(sh: Shape, u: Use, p: Printed)
    requires Denoted(sh, ScopeOf(u), NameOf(p)).Some?
    ensures || (Home(u, p) >= 0 && Denoted(sh, ScopeOf(u), NameOf(p)) == Some(ScopeOf(u)[..Home(u, p)] + NameOf(p)))
            || exists n :: Caught(sh, u, p, n)
  {
    var found := Innermost(sh, ScopeOf(u), NameOf(p)[0]);
    if found.value != Home(u, p) { assert Caught(sh, u, p, found.value); }
  }

  lemma CaughtIsMisprinted(c: Corpus, file: File, copied: map<string, Origin>, u: Use, n: nat)
    requires c.resolve(u.at).Some? && Caught(ShapeOf(file), u, Print(c, copied, u), n)
    ensures Misprinted(c, file, copied, u)
  {
    var p := Print(c, copied, u);
    CaughtIsFound(ShapeOf(file), u, p, n);
    PrintedIsAtHome(c, copied, u, c.resolve(u.at).value);
    if p.Short? || p.Relative? {
      assert |ScopeOf(u)[..Home(u, p)] + NameOf(p)| == Home(u, p) + |NameOf(p)|;
    }
  }

  /** A printed name denotes something in the file that is not its type exactly when its search ends too
      early or too late at a node of that name, or something else stands in the place of its type. */
  lemma MisprintsIff(c: Corpus, file: File, copied: map<string, Origin>, u: Use, t: TypeName)
    requires c.resolve(u.at) == Some(t)
    ensures var p := Print(c, copied, u);
            Misprinted(c, file, copied, u)
            <==> Replaced(c, file, u, p, t) || exists n :: Caught(ShapeOf(file), u, p, n)
  {
    var p, sh := Print(c, copied, u), ShapeOf(file);
    PrintedMeans(c, file, copied, u, t);
    if n: nat :| Caught(sh, u, p, n) {
      CaughtIsMisprinted(c, file, copied, u, n);
    } else if Misprinted(c, file, copied, u) {
      PrintedIsAtHome(c, copied, u, t);
      FoundIsHomeOrCaught(sh, u, p);
    }
  }

  /** What is behind a misprint. */
  lemma MisprintHasCause(c: Corpus, own: File, file: File, copied: map<string, Origin>, u: Use)
    requires WellFormed(c, own) && Built(c, own, file, copied) && Closed(c, file, copied)
    requires u in Uses(c.pkg, file.messages, file.services) && Misprinted(c, file, copied, u)
    ensures || Clash(c, own, Uses(c.pkg, file.messages, file.services))
            || !Definable(c, own, c.resolve(u.at).value)
            || Buried(ShapeOf(file))
            || Captured(c.pkg, ShapeOf(file), u, Print(c, copied, u))
  {
    var t, p := c.resolve(u.at).value, Print(c, copied, u);
    PrintedMeans(c, file, copied, u, t);
    AllWrittenIff(ShapeOf(file));
    if !Clash(c, own, Uses(c.pkg, file.messages, file.services)) && Definable(c, own, t) && !Buried(ShapeOf(file)) {
      UsedIsDefined(c, own, file, copied, u, t);
      DefinedIsSeen(file, t);
    }
  }

  lemma PlainName(name: string)
    requires '.' !in name
    ensures Split(name) == [name]
  {
    assert FirstDot(name) == |name|;
  }

  // ---------------------------------------------------------------- a nested name captures a printed one

  function Plain(short: string, fields: seq<Field>): Message {
    Message(TypeName("p.v1", short), "p.v1", fields, 0, 0)
  }

  const FOO := Plain("Foo", [Field("bar", false, Named("b", MessageKind))])
  const BAR := Plain("Bar", [])
  const NESTED := Plain("Foo.Bar", [])
  const FOO_FILE := File([FOO, BAR, NESTED], [], [])
  const BAR_USE := Use(Lookup("b", 0, 0, "p.v1", MessageKind), "Foo")
  const FOO_COPIED :=
    map["Foo" := Own(FOO.typeName), "Bar" := Own(BAR.typeName), "Foo.Bar" := Own(NESTED.typeName)]

  function FooCorpus(): Corpus {
    Corpus("p.v1", _ => Some(BAR.typeName), map[], map[])
  }

  lemma FooUses()
    ensures Uses("p.v1", FOO_FILE.messages, FOO_FILE.services) == [BAR_USE]
  {
    assert [FOO, BAR, NESTED][..2] == [FOO, BAR] && [FOO, BAR][..1] == [FOO];
    UseOfOne(FOO);
    assert FOO.fields[..0] == [];
    assert FieldUses(FOO, FOO.fields) == FieldUses(FOO, []) + [BAR_USE];
    assert FieldUses(BAR, BAR.fields) == FieldUses(NESTED, NESTED.fields) == [];
    assert MessageUses([FOO, BAR]) == MessageUses([FOO]) + FieldUses(BAR, BAR.fields);
    assert MessageUses(FOO_FILE.messages) == MessageUses([FOO, BAR]) + FieldUses(NESTED, NESTED.fields);
  }

  lemma FooDefines(t: TypeName)
    ensures Defines(FOO_FILE, t) <==> t in {FOO.typeName, BAR.typeName, NESTED.typeName}
  {
    assert FOO in FOO_FILE.messages && BAR in FOO_FILE.messages && NESTED in FOO_FILE.messages;
  }

  lemma FooIsBuilt()
    ensures WellFormed(FooCorpus(), FOO_FILE) && Built(FooCorpus(), FOO_FILE, FOO_FILE, FOO_COPIED)
    ensures Closed(FooCorpus(), FOO_FILE, FOO_COPIED)
    ensures !Clash(FooCorpus(), FOO_FILE, Uses("p.v1", FOO_FILE.messages, FOO_FILE.services))
    ensures Definable(FooCorpus(), FOO_FILE, BAR.typeName)
  {
    FooUses();
    forall t ensures Defines(FOO_FILE, t) <==> t in {FOO.typeName, BAR.typeName, NESTED.typeName} { FooDefines(t); }
  }

  lemma FooIsCaptured()
    ensures Caught(ShapeOf(FOO_FILE), BAR_USE, Short("Bar"), 1)
            && ScopeOf(BAR_USE)[..1] + NameOf(Short("Bar")) == Split("Foo.Bar")
  {
    FooPaths();
    BarIsPrinted();
    NestedIsSeen();
    CaughtInside(ShapeOf(FOO_FILE), BAR_USE, Short("Bar"), "Foo", "Bar");
  }

  lemma BarIsPrinted()
    ensures ScopeOf(BAR_USE) == ["Foo"] && NameOf(Short("Bar")) == ["Bar"]
  {
    FooPaths();
  }

  lemma CaughtInside(sh: Shape, u: Use, p: Printed, outer: string, name: string)
    requires ScopeOf(u) == [outer] && NameOf(p) == [name] && p.Short? && Seen(sh, [outer, name])
    ensures Caught(sh, u, p, 1) && ScopeOf(u)[..1] + NameOf(p) == [outer, name]
  {
    assert [outer][..1] + [name] == [outer, name];
  }

  lemma NestedIsSeen()
    ensures Seen(ShapeOf(FOO_FILE), ["Foo", "Bar"])
  {
    FooPaths();
    assert NESTED in FOO_FILE.messages;
    assert NESTED in ShapeOf(FOO_FILE).messages;
  }

  lemma FooPaths()
    ensures Split("Foo") == ["Foo"] && Split("Bar") == ["Bar"] && Split("Foo.Bar") == ["Foo", "Bar"]
  {
    PlainName("Foo");
    PlainName("Bar");
    SplitDotted("Foo", "Bar");
    assert "Foo" + "." + "Bar" == "Foo.Bar";
  }

  /** It happens: a field of `Foo` that resolves to `Bar` prints `Bar`, and denotes `Foo.Bar`, although no two
      types share a short name and everything is defined and written. */
  lemma NestedNameCaptures() returns (c: Corpus, own: File, copied: map<string, Origin>, u: Use)
    ensures WellFormed(c, own) && Built(c, own, own, copied) && Closed(c, own, copied)
    ensures u in Uses(c.pkg, own.messages, own.services) && Misprinted(c, own, copied, u)
    ensures Meaning(own, u, Print(c, copied, u)) == Some(Split("Foo.Bar")) && c.resolve(u.at).value.short == "Bar"
    ensures !Clash(c, own, Uses(c.pkg, own.messages, own.services)) && !Buried(ShapeOf(own))
    ensures AllDefinable(c, own, Uses(c.pkg, own.messages, own.services), copied)
  {
    c, own, copied, u := FooCorpus(), FOO_FILE, FOO_COPIED, BAR_USE;
    FooUses();
    FooIsBuilt();
    FooIsCaptured();
    assert Print(c, copied, u) == Short("Bar");
    CaughtIsFound(ShapeOf(own), u, Short("Bar"), 1);
    CaughtIsMisprinted(c, own, copied, u, 1);
  }
}
