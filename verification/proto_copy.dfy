/** The proto extractor copies into a package every type the package refers to, until nothing it
    prints needs a package name.  How a reference resolves is a parameter. */
module ProtoCopy {
  import opened Common
  import opened ProtoResolve

  /** What a resolution depends on. */
  datatype Lookup = Lookup(ref: string, pos: int, moduleStart: int, preferredPkg: string, kind: Kind)

  /** A place that prints a type: a field of the message `parent`, or a method (`parent` is blank). */
  datatype Use = Use(at: Lookup, parent: string)

  datatype Type = Scalar(code: int) | Named(ref: string, kind: Kind)

  datatype Field = Field(name: string, inMap: bool, t: Type)

  datatype Message = Message(typeName: TypeName, pkg: string, fields: seq<Field>, pos: int, moduleStart: int)

  datatype Enum = Enum(typeName: TypeName, pkg: string, values: seq<string>)

  datatype Method = Method(name: string, input: string, output: string)

  datatype Service = Service(name: string, methods: seq<Method>, pos: int, moduleStart: int)

  /** The package being generated, and everything extracted. */
  datatype Corpus = Corpus(pkg: string, resolve: Lookup -> Option<TypeName>,
                           messages: map<TypeName, Message>, enums: map<TypeName, Enum>)

  /** Why a short name is local: the package defines it, or it stands for a foreign type. */
  datatype Origin = Own(name: TypeName) | Copied(name: TypeName)

  datatype File = File(messages: seq<Message>, enums: seq<Enum>, services: seq<Service>)

  // ---------------------------------------------------------------- uses

  function FieldUses(m: Message, fields: seq<Field>): seq<Use> {
    if fields == [] then []
    else
      var f := fields[|fields| - 1];
      FieldUses(m, fields[..|fields| - 1])
      + match f.t
        case Scalar(_) => []
        case Named(ref, kind) => [Use(Lookup(ref, m.pos, m.moduleStart, m.typeName.pkg, kind), m.typeName.short)]
  }

  function MessageUses(messages: seq<Message>): seq<Use> {
    if messages == [] then []
    else
      var m := messages[|messages| - 1];
      MessageUses(messages[..|messages| - 1]) + FieldUses(m, m.fields)
  }

  function MethodUses(pkg: string, svc: Service, methods: seq<Method>): seq<Use> {
    if methods == [] then []
    else
      var m := methods[|methods| - 1];
      MethodUses(pkg, svc, methods[..|methods| - 1])
      + [Use(Lookup(m.input, svc.pos, svc.moduleStart, pkg, MessageKind), ""),
         Use(Lookup(m.output, svc.pos, svc.moduleStart, pkg, MessageKind), "")]
  }

  function ServiceUses(pkg: string, services: seq<Service>): seq<Use> {
    if services == [] then []
    else
      var svc := services[|services| - 1];
      ServiceUses(pkg, services[..|services| - 1]) + MethodUses(pkg, svc, svc.methods)
  }

  function Uses(pkg: string, messages: seq<Message>, services: seq<Service>): seq<Use> {
    MessageUses(messages) + ServiceUses(pkg, services)
  }

  predicate Foreign(pkg: string, t: TypeName) { t.pkg != "" && t.pkg != pkg && !IsGoogle(t.pkg) }

  predicate Wants(c: Corpus, u: Use, t: TypeName) { c.resolve(u.at) == Some(t) && Foreign(c.pkg, t) }

  ghost predicate Wanted(c: Corpus, uses: seq<Use>, t: TypeName) {
    exists u :: u in uses && Wants(c, u, t)
  }

  lemma {:induction false} UsesOfPrefix(messages: seq<Message>, n: nat)
    requires n <= |messages|
    ensures forall u :: u in MessageUses(messages[..n]) ==> u in MessageUses(messages)
  {
    if n < |messages| {
      UsesOfPrefix(messages[..|messages| - 1], n);
      assert messages[..|messages| - 1][..n] == messages[..n];
    } else {
      assert messages[..n] == messages;
    }
  }

  // ---------------------------------------------------------------- collecting

  ghost predicate Collected(c: Corpus, local: set<string>, uses: seq<Use>, before: set<TypeName>,
                            after: set<TypeName>) {
    forall t :: t in after <==> t in before || (Wanted(c, uses, t) && t.short !in local)
  }

  lemma CollectedTwice(c: Corpus, local: set<string>, a: seq<Use>, b: seq<Use>, x: set<TypeName>, y: set<TypeName>,
                       z: set<TypeName>)
    requires Collected(c, local, a, x, y) && Collected(c, local, b, y, z)
    ensures Collected(c, local, a + b, x, z)
  {
    forall t ensures Wanted(c, a + b, t) <==> Wanted(c, a, t) || Wanted(c, b, t) {
      if Wanted(c, a, t) { var u :| u in a && Wants(c, u, t); assert u in a + b; }
      if Wanted(c, b, t) { var u :| u in b && Wants(c, u, t); assert u in a + b; }
    }
  }

  /** collectFieldRefsSimple and collectMethodRefsSimple, on one reference. */
  method CollectRef(c: Corpus, local: set<string>, u: Use, needed: set<TypeName>) returns (more: set<TypeName>)
    ensures Collected(c, local, [u], needed, more)
  {
    more := needed;
    assert u in [u];
    var resolved := c.resolve(u.at);
    if resolved.None? { return; }
    var t := resolved.value;
    if t.pkg == "" || t.pkg == c.pkg || IsGoogle(t.pkg) { return; }
    if t.short in local { return; }
    assert Wants(c, u, t);
    more := needed + {t};
  }

  method CollectFields(c: Corpus, local: set<string>, m: Message, needed: set<TypeName>) returns (more: set<TypeName>)
    ensures Collected(c, local, FieldUses(m, m.fields), needed, more)
  {
    more := needed;
    for i := 0 to |m.fields|
      invariant Collected(c, local, FieldUses(m, m.fields[..i]), needed, more)
    {
      ghost var before := more;
      assert m.fields[..i + 1][..i] == m.fields[..i];
      match m.fields[i].t
      case Scalar(_) =>
        assert FieldUses(m, m.fields[..i + 1]) == FieldUses(m, m.fields[..i]);
      case Named(ref, kind) =>
        var u := Use(Lookup(ref, m.pos, m.moduleStart, m.typeName.pkg, kind), m.typeName.short);
        more := CollectRef(c, local, u, more);
        CollectedTwice(c, local, FieldUses(m, m.fields[..i]), [u], needed, before, more);
    }
    assert m.fields[..|m.fields|] == m.fields;
  }

  method CollectMethods(c: Corpus, local: set<string>, svc: Service, needed: set<TypeName>)
    returns (more: set<TypeName>)
    ensures Collected(c, local, MethodUses(c.pkg, svc, svc.methods), needed, more)
  {
    more := needed;
    for i := 0 to |svc.methods|
      invariant Collected(c, local, MethodUses(c.pkg, svc, svc.methods[..i]), needed, more)
    {
      var m := svc.methods[i];
      var input := Use(Lookup(m.input, svc.pos, svc.moduleStart, c.pkg, MessageKind), "");
      var output := Use(Lookup(m.output, svc.pos, svc.moduleStart, c.pkg, MessageKind), "");
      ghost var before := more;
      assert svc.methods[..i + 1][..i] == svc.methods[..i];
      more := CollectRef(c, local, input, more);
      ghost var middle := more;
      more := CollectRef(c, local, output, more);
      CollectedTwice(c, local, [input], [output], before, middle, more);
      assert [input] + [output] == [input, output];
      CollectedTwice(c, local, MethodUses(c.pkg, svc, svc.methods[..i]), [input, output], needed, before, more);
    }
    assert svc.methods[..|svc.methods|] == svc.methods;
  }

  /** The references of one round: every foreign type the file uses under a short name not yet local. */
  method Collect(c: Corpus, local: set<string>, file: File) returns (needed: set<TypeName>)
    ensures Collected(c, local, Uses(c.pkg, file.messages, file.services), {}, needed)
  {
    needed := {};
    for i := 0 to |file.messages|
      invariant Collected(c, local, MessageUses(file.messages[..i]), {}, needed)
    {
      ghost var before := needed;
      assert file.messages[..i + 1][..i] == file.messages[..i];
      needed := CollectFields(c, local, file.messages[i], needed);
      CollectedTwice(c, local, MessageUses(file.messages[..i]), FieldUses(file.messages[i], file.messages[i].fields),
                     {}, before, needed);
    }
    assert file.messages[..|file.messages|] == file.messages;
    ghost var fromMessages := needed;
    for i := 0 to |file.services|
      invariant Collected(c, local, ServiceUses(c.pkg, file.services[..i]), fromMessages, needed)
    {
      ghost var before := needed;
      assert file.services[..i + 1][..i] == file.services[..i];
      needed := CollectMethods(c, local, file.services[i], needed);
      CollectedTwice(c, local, ServiceUses(c.pkg, file.services[..i]),
                     MethodUses(c.pkg, file.services[i], file.services[i].methods), fromMessages, before, needed);
    }
    assert file.services[..|file.services|] == file.services;
    CollectedTwice(c, local, MessageUses(file.messages), ServiceUses(c.pkg, file.services), {}, fromMessages, needed);
  }

  // ---------------------------------------------------------------- copying

  ghost predicate WellFormed(c: Corpus, own: File) {
    && (forall t :: t in c.messages ==> c.messages[t].typeName == t)
    && (forall t :: t in c.enums ==> c.enums[t].typeName == t)
    && (forall m :: m in own.messages ==> m.typeName.pkg == c.pkg && m.pkg == c.pkg)
    && (forall e :: e in own.enums ==> e.typeName.pkg == c.pkg && e.pkg == c.pkg)
  }

  predicate Extends(own: File, file: File) {
    && own.messages <= file.messages && own.enums <= file.enums && own.services == file.services
  }

  /** Message `i` of the file is a copy of a foreign message that something before it uses. */
  ghost predicate CopiedMessage(c: Corpus, file: File, i: nat)
    requires i < |file.messages|
  {
    var t := file.messages[i].typeName;
    && t in c.messages && file.messages[i] == c.messages[t].(pkg := c.pkg)
    && Wanted(c, Uses(c.pkg, file.messages[..i], file.services), t)
  }

  ghost predicate CopiedEnum(c: Corpus, file: File, i: nat)
    requires i < |file.enums|
  {
    var t := file.enums[i].typeName;
    && t !in c.messages && t in c.enums && file.enums[i] == c.enums[t].(pkg := c.pkg)
    && Wanted(c, Uses(c.pkg, file.messages, file.services), t)
  }

  /** The own definitions are kept, and everything after them is a copy that was needed. */
  ghost predicate Traced(c: Corpus, own: File, file: File) {
    && Extends(own, file)
    && (forall i :: |own.messages| <= i < |file.messages| ==> CopiedMessage(c, file, i))
    && (forall i :: |own.enums| <= i < |file.enums| ==> CopiedEnum(c, file, i))
  }

  ghost predicate Defines(file: File, t: TypeName) {
    (exists m :: m in file.messages && m.typeName == t) || (exists e :: e in file.enums && e.typeName == t)
  }

  /** Every recorded short name stands for one type of that short name: one the package defines, or a
      foreign one that is used. */
  ghost predicate Originated(c: Corpus, own: File, uses: seq<Use>, copied: map<string, Origin>) {
    && (forall s :: s in copied ==> copied[s].name.short == s)
    && (forall s :: s in copied && copied[s].Own? ==> Defines(own, copied[s].name))
    && (forall s :: s in copied && copied[s].Copied? ==> Wanted(c, uses, copied[s].name))
    && (forall t :: Defines(own, t) ==> t.short in copied && copied[t.short].Own?)
  }

  /** The copies are recorded under their short names. */
  ghost predicate Marked(own: File, messages: seq<Message>, enums: seq<Enum>, copied: map<string, Origin>) {
    && (forall i :: |own.messages| <= i < |messages|
                    ==> messages[i].typeName.short in copied
                        && copied[messages[i].typeName.short] == Copied(messages[i].typeName))
    && (forall i :: |own.enums| <= i < |enums|
                    ==> enums[i].typeName.short in copied
                        && copied[enums[i].typeName.short] == Copied(enums[i].typeName))
  }

  ghost predicate Recorded(c: Corpus, own: File, file: File, copied: map<string, Origin>) {
    && Originated(c, own, Uses(c.pkg, file.messages, file.services), copied)
    && Marked(own, file.messages, file.enums, copied)
  }

  predicate Known(c: Corpus, t: TypeName) { t in c.messages || t in c.enums }

  /** What is recorded as copied is there, unless nothing is known of it. */
  ghost predicate Present(c: Corpus, file: File, copied: map<string, Origin>) {
    forall s :: s in copied && copied[s].Copied? && Known(c, copied[s].name) ==> Defines(file, copied[s].name)
  }

  lemma AddPresent(c: Corpus, file: File, copied: map<string, Origin>, t: TypeName, after: File)
    requires Present(c, file, copied) && file.messages <= after.messages && file.enums <= after.enums
    requires Known(c, t) ==> Defines(after, t)
    ensures Present(c, after, copied[t.short := Copied(t)])
  {
    forall s | s in copied && Defines(file, copied[s].name) ensures Defines(after, copied[s].name) {
      MoreDefines(file, copied[s].name, after);
    }
  }

  lemma MoreDefines(file: File, t: TypeName, after: File)
    requires Defines(file, t) && file.messages <= after.messages && file.enums <= after.enums
    ensures Defines(after, t)
  {
    if m :| m in file.messages && m.typeName == t {
      assert m in after.messages;
    } else {
      var e :| e in file.enums && e.typeName == t;
      assert e in after.enums;
    }
  }

  /** No two copies share a short name. */
  ghost predicate Distinct(own: File, file: File) {
    && (forall i, j :: |own.messages| <= i < j < |file.messages|
                       ==> file.messages[i].typeName.short != file.messages[j].typeName.short)
    && (forall i, j :: |own.enums| <= i < j < |file.enums|
                       ==> file.enums[i].typeName.short != file.enums[j].typeName.short)
    && (forall i, j :: |own.messages| <= i < |file.messages| && |own.enums| <= j < |file.enums|
                       ==> file.messages[i].typeName.short != file.enums[j].typeName.short)
  }

  /** Everything the file uses from elsewhere has a local short name. */
  ghost predicate Closed(c: Corpus, file: File, copied: map<string, Origin>) {
    forall t :: Wanted(c, Uses(c.pkg, file.messages, file.services), t) ==> t.short in copied
  }

  ghost predicate Built(c: Corpus, own: File, file: File, copied: map<string, Origin>) {
    Traced(c, own, file) && Recorded(c, own, file, copied) && Distinct(own, file) && Present(c, file, copied)
  }

  /** The short names there is anything to copy for. */
  function KnownShorts(c: Corpus): set<string> {
    set t | t in c.messages.Keys + c.enums.Keys :: t.short
  }

  lemma LaterUsesWant(c: Corpus, messages: seq<Message>, services: seq<Service>, n: nat, t: TypeName)
    requires n <= |messages| && Wanted(c, Uses(c.pkg, messages[..n], services), t)
    ensures Wanted(c, Uses(c.pkg, messages, services), t)
  {
    var u :| u in Uses(c.pkg, messages[..n], services) && Wants(c, u, t);
    UsesOfPrefix(messages, n);
    assert u in MessageUses(messages[..n]) || u in ServiceUses(c.pkg, services);
    assert u in Uses(c.pkg, messages, services);
  }

  lemma AddMessageTraced(c: Corpus, own: File, file: File, t: TypeName, after: File)
    requires WellFormed(c, own) && Traced(c, own, file)
    requires t in c.messages && Wanted(c, Uses(c.pkg, file.messages, file.services), t)
    requires after == file.(messages := file.messages + [c.messages[t].(pkg := c.pkg)])
    requires forall x :: Wanted(c, Uses(c.pkg, file.messages, file.services), x)
                         ==> Wanted(c, Uses(c.pkg, after.messages, after.services), x)
    ensures Traced(c, own, after)
  {
    var n := |file.messages|;
    assert after.messages[..n] == file.messages;
    forall i | |own.messages| <= i < |after.messages| ensures CopiedMessage(c, after, i) {
      assert i < n ==> CopiedMessage(c, file, i) && after.messages[..i] == file.messages[..i];
    }
    forall i | |own.enums| <= i < |after.enums| ensures CopiedEnum(c, after, i) {
      assert CopiedEnum(c, file, i);
    }
  }

  lemma AddMessageDistinct(c: Corpus, own: File, file: File, copied: map<string, Origin>, t: TypeName, after: File)
    requires WellFormed(c, own) && Extends(own, file) && Recorded(c, own, file, copied) && Distinct(own, file)
    requires t in c.messages && t.short !in copied
    requires after == file.(messages := file.messages + [c.messages[t].(pkg := c.pkg)])
    ensures Distinct(own, after)
  {
    var n := |file.messages|;
    assert after.messages[n].typeName == t;
    assert forall i :: |own.messages| <= i < n ==> after.messages[i] == file.messages[i];
    assert forall i :: |own.enums| <= i < |file.enums| ==> file.enums[i].typeName.short in copied;
  }

  lemma AddOrigin(c: Corpus, own: File, uses: seq<Use>, copied: map<string, Origin>, t: TypeName, usesAfter: seq<Use>)
    requires Originated(c, own, uses, copied)
    requires t.short !in copied && Wanted(c, uses, t)
    requires forall x :: Wanted(c, uses, x) ==> Wanted(c, usesAfter, x)
    ensures Originated(c, own, usesAfter, copied[t.short := Copied(t)])
  {
  }

  lemma AddMarkedMessage(own: File, messages: seq<Message>, enums: seq<Enum>, copied: map<string, Origin>, m: Message)
    requires Marked(own, messages, enums, copied) && m.typeName.short !in copied
    ensures Marked(own, messages + [m], enums, copied[m.typeName.short := Copied(m.typeName)])
  {
  }

  lemma AddMessage(c: Corpus, own: File, file: File, copied: map<string, Origin>, t: TypeName, after: File)
    requires WellFormed(c, own) && Built(c, own, file, copied)
    requires t in c.messages && t.short !in copied && Wanted(c, Uses(c.pkg, file.messages, file.services), t)
    requires after == file.(messages := file.messages + [c.messages[t].(pkg := c.pkg)])
    ensures Built(c, own, after, copied[t.short := Copied(t)])
    ensures forall x :: Wanted(c, Uses(c.pkg, file.messages, file.services), x)
                        ==> Wanted(c, Uses(c.pkg, after.messages, after.services), x)
  {
    var n := |file.messages|;
    assert after.messages[..n] == file.messages;
    forall x | Wanted(c, Uses(c.pkg, file.messages, file.services), x)
      ensures Wanted(c, Uses(c.pkg, after.messages, after.services), x)
    {
      LaterUsesWant(c, after.messages, file.services, n, x);
    }
    AddMessageTraced(c, own, file, t, after);
    AddMessageDistinct(c, own, file, copied, t, after);
    AddOrigin(c, own, Uses(c.pkg, file.messages, file.services), copied, t,
              Uses(c.pkg, after.messages, after.services));
    AddMarkedMessage(own, file.messages, file.enums, copied, c.messages[t].(pkg := c.pkg));
    assert after.messages[n].typeName == t && after.messages[n] in after.messages;
    AddPresent(c, file, copied, t, after);
  }

  lemma AddEnumTraced(c: Corpus, own: File, file: File, t: TypeName, after: File)
    requires WellFormed(c, own) && Traced(c, own, file)
    requires t !in c.messages && t in c.enums && Wanted(c, Uses(c.pkg, file.messages, file.services), t)
    requires after == file.(enums := file.enums + [c.enums[t].(pkg := c.pkg)])
    ensures Traced(c, own, after)
  {
    forall i | |own.messages| <= i < |after.messages| ensures CopiedMessage(c, after, i) {
      assert CopiedMessage(c, file, i);
    }
    forall i | |own.enums| <= i < |after.enums| ensures CopiedEnum(c, after, i) {
      assert i < |file.enums| ==> CopiedEnum(c, file, i);
    }
  }

  lemma AddMarkedEnum(own: File, messages: seq<Message>, enums: seq<Enum>, copied: map<string, Origin>, e: Enum)
    requires Marked(own, messages, enums, copied) && e.typeName.short !in copied
    ensures Marked(own, messages, enums + [e], copied[e.typeName.short := Copied(e.typeName)])
  {
  }

  lemma AddEnum(c: Corpus, own: File, file: File, copied: map<string, Origin>, t: TypeName, after: File)
    requires WellFormed(c, own) && Built(c, own, file, copied)
    requires t !in c.messages && t in c.enums && t.short !in copied
    requires Wanted(c, Uses(c.pkg, file.messages, file.services), t)
    requires after == file.(enums := file.enums + [c.enums[t].(pkg := c.pkg)])
    ensures Built(c, own, after, copied[t.short := Copied(t)])
  {
    AddEnumTraced(c, own, file, t, after);
    AddOrigin(c, own, Uses(c.pkg, file.messages, file.services), copied, t,
              Uses(c.pkg, after.messages, after.services));
    AddMarkedEnum(own, file.messages, file.enums, copied, c.enums[t].(pkg := c.pkg));
    AddEnumDistinct(c, own, file, copied, t, after);
    assert after.enums[|file.enums|].typeName == t && after.enums[|file.enums|] in after.enums;
    AddPresent(c, file, copied, t, after);
  }

  lemma AddEnumDistinct(c: Corpus, own: File, file: File, copied: map<string, Origin>, t: TypeName, after: File)
    requires WellFormed(c, own) && Extends(own, file) && Recorded(c, own, file, copied) && Distinct(own, file)
    requires t in c.enums && t.short !in copied
    requires after == file.(enums := file.enums + [c.enums[t].(pkg := c.pkg)])
    ensures Distinct(own, after)
  {
    assert after.enums[|file.enums|].typeName == t;
    assert forall i :: |own.enums| <= i < |file.enums| ==> after.enums[i] == file.enums[i];
    assert forall i :: |own.messages| <= i < |file.messages| ==> file.messages[i].typeName.short in copied;
  }

  /** One needed type: copied, or marked local although nothing is known of it. */
  method CopyOne(c: Corpus, ghost own: File, file: File, copied: map<string, Origin>, t: TypeName)
    returns (after: File, copiedAfter: map<string, Origin>, ok: bool)
    requires WellFormed(c, own) && Built(c, own, file, copied)
    requires t.short !in copied && Wanted(c, Uses(c.pkg, file.messages, file.services), t)
    ensures Built(c, own, after, copiedAfter) && copiedAfter == copied[t.short := Copied(t)]
    ensures ok == (t in c.messages || t in c.enums)
    ensures !ok ==> after == file
    ensures forall x :: Wanted(c, Uses(c.pkg, file.messages, file.services), x)
                        ==> Wanted(c, Uses(c.pkg, after.messages, after.services), x)
  {
    after, copiedAfter, ok := file, copied[t.short := Copied(t)], true;
    if t in c.messages {
      after := file.(messages := file.messages + [c.messages[t].(pkg := c.pkg)]);
      AddMessage(c, own, file, copied, t, after);
    } else if t in c.enums {
      after := file.(enums := file.enums + [c.enums[t].(pkg := c.pkg)]);
      AddEnum(c, own, file, copied, t, after);
    } else {
      ok := false;
      AddPresent(c, file, copied, t, file);
    }
  }

  /** One round: the needed types in any order, each unless its short name became local meanwhile. */
  method CopyNeeded(c: Corpus, ghost own: File, file: File, copied: map<string, Origin>, needed: set<TypeName>)
    returns (after: File, copiedAfter: map<string, Origin>, count: nat)
    requires WellFormed(c, own) && Built(c, own, file, copied)
    requires forall t :: t in needed ==> Wanted(c, Uses(c.pkg, file.messages, file.services), t)
    ensures Built(c, own, after, copiedAfter) && copied.Keys <= copiedAfter.Keys
    ensures count == 0 ==> after == file && forall t :: t in needed ==> t.short in copiedAfter
    ensures count > 0 ==> KnownShorts(c) * copiedAfter.Keys > KnownShorts(c) * copied.Keys
  {
    after, copiedAfter, count := file, copied, 0;
    var pending := needed;
    while pending != {}
      invariant Built(c, own, after, copiedAfter) && copied.Keys <= copiedAfter.Keys && pending <= needed
      invariant forall t :: t in pending ==> Wanted(c, Uses(c.pkg, after.messages, after.services), t)
      invariant forall t :: t in needed - pending ==> t.short in copiedAfter
      invariant count == 0 ==> after == file
      invariant count > 0 ==> exists s :: s in KnownShorts(c) && s !in copied && s in copiedAfter
      decreases pending
    {
      var t :| t in pending;
      pending := pending - {t};
      assert Foreign(c.pkg, t);
      if t.short !in copiedAfter {
        var ok;
        after, copiedAfter, ok := CopyOne(c, own, after, copiedAfter, t);
        if ok {
          assert t.short in KnownShorts(c);
          count := count + 1;
        }
      }
    }
    if count > 0 {
      ghost var s :| s in KnownShorts(c) && s !in copied && s in copiedAfter;
      assert s in KnownShorts(c) * copiedAfter.Keys && s !in KnownShorts(c) * copied.Keys;
    }
  }

  /** The short names the package defines itself. */
  method RecordOwn(c: Corpus, own: File) returns (copied: map<string, Origin>)
    requires WellFormed(c, own)
    ensures Built(c, own, own, copied)
  {
    copied := map[];
    for i := 0 to |own.messages|
      invariant forall s :: s in copied ==> copied[s].Own? && copied[s].name.short == s && Defines(own, copied[s].name)
      invariant forall m :: m in own.messages[..i] ==> m.typeName.short in copied
    {
      var t := own.messages[i].typeName;
      assert Defines(own, t);
      if t.short !in copied { copied := copied[t.short := Own(t)]; }
    }
    assert own.messages[..|own.messages|] == own.messages;
    for i := 0 to |own.enums|
      invariant forall s :: s in copied ==> copied[s].Own? && copied[s].name.short == s && Defines(own, copied[s].name)
      invariant forall m :: m in own.messages ==> m.typeName.short in copied
      invariant forall e :: e in own.enums[..i] ==> e.typeName.short in copied
    {
      var t := own.enums[i].typeName;
      assert Defines(own, t);
      if t.short !in copied { copied := copied[t.short := Own(t)]; }
    }
    assert own.enums[..|own.enums|] == own.enums;
  }

  /** copyAllExternalTypes: rounds until one copies nothing, or the round after the twentieth. */
  method CopyAllExternalTypes(c: Corpus, own: File)
    returns (file: File, copied: map<string, Origin>, capped: bool)
    requires WellFormed(c, own)
    ensures Built(c, own, file, copied)
    ensures !capped ==> Closed(c, file, copied)
    ensures capped ==> |KnownShorts(c)| > 20
  {
    copied := RecordOwn(c, own);
    file, capped := own, false;
    var round := 1;
    while true
      invariant Built(c, own, file, copied)
      invariant round >= 1 && |KnownShorts(c) * copied.Keys| >= round - 1
      decreases KnownShorts(c) - copied.Keys
    {
      ghost var uses := Uses(c.pkg, file.messages, file.services);
      ghost var localBefore := KnownShorts(c) * copied.Keys;
      var before := copied.Keys;
      var needed := Collect(c, before, file);
      var count;
      file, copied, count := CopyNeeded(c, own, file, copied, needed);
      if count == 0 { return; }
      SmallerSet(localBefore, KnownShorts(c) * copied.Keys);
      if round > 20 {
        capped := true;
        SmallerOrSame(KnownShorts(c) * copied.Keys, KnownShorts(c));
        return;
      }
      round := round + 1;
    }
  }

  lemma SmallerOrSame<T>(a: set<T>, b: set<T>)
    requires a <= b
    ensures |a| <= |b|
  {
    assert b == a + (b - a);
  }

  lemma SmallerSet<T>(a: set<T>, b: set<T>)
    requires a < b
    ensures |a| < |b|
  {
    var x :| x in b && x !in a;
    SmallerOrSame(a, b - {x});
  }

  // ---------------------------------------------------------------- only what is needed

  /** A chain of references from the package's own messages and services, through foreign messages. */
  ghost predicate Chain(c: Corpus, own: File, path: seq<TypeName>) {
    && path != []
    && Wanted(c, Uses(c.pkg, own.messages, own.services), path[0])
    && (forall i :: 0 <= i < |path| - 1
                    ==> path[i] in c.messages && Wanted(c, MessageUses([c.messages[path[i]]]), path[i + 1]))
  }

  ghost predicate Reachable(c: Corpus, own: File, t: TypeName) {
    exists path :: Chain(c, own, path) && path[|path| - 1] == t
  }

  lemma {:induction false} CopyUsesTheSame(m: Message, pkg: string, fields: seq<Field>)
    ensures FieldUses(m.(pkg := pkg), fields) == FieldUses(m, fields)
    decreases |fields|
  {
    if fields != [] { CopyUsesTheSame(m, pkg, fields[..|fields| - 1]); }
  }

  lemma UseOfOne(m: Message)
    ensures MessageUses([m]) == FieldUses(m, m.fields)
  {
    assert [m][..0] == [];
    assert MessageUses([m]) == MessageUses([m][..0]) + FieldUses(m, m.fields);
  }

  lemma ExtendChain(c: Corpus, own: File, m: TypeName, t: TypeName)
    requires Reachable(c, own, m) && m in c.messages && Wanted(c, MessageUses([c.messages[m]]), t)
    ensures Reachable(c, own, t)
  {
    var path :| Chain(c, own, path) && path[|path| - 1] == m;
    var longer := path + [t];
    forall i | 0 <= i < |longer| - 1
      ensures longer[i] in c.messages && Wanted(c, MessageUses([c.messages[longer[i]]]), longer[i + 1])
    {
      assert i < |path| - 1 || longer[i] == m;
    }
    assert Chain(c, own, longer) && longer[|longer| - 1] == t;
  }

  lemma {:induction false} WantedIsReachable(c: Corpus, own: File, file: File, n: nat, t: TypeName)
    requires Traced(c, own, file) && |own.messages| <= n <= |file.messages|
    requires Wanted(c, Uses(c.pkg, file.messages[..n], file.services), t)
    ensures Reachable(c, own, t)
    decreases n
  {
    if n == |own.messages| {
      assert file.messages[..n] == own.messages;
      assert Chain(c, own, [t]) && [t][|[t]| - 1] == t;
    } else {
      var u :| u in Uses(c.pkg, file.messages[..n], file.services) && Wants(c, u, t);
      var m := file.messages[n - 1];
      assert file.messages[..n][..n - 1] == file.messages[..n - 1];
      if u in FieldUses(m, m.fields) {
        assert CopiedMessage(c, file, n - 1);
        WantedIsReachable(c, own, file, n - 1, m.typeName);
        CopyUsesTheSame(c.messages[m.typeName], c.pkg, m.fields);
        UseOfOne(c.messages[m.typeName]);
        ExtendChain(c, own, m.typeName, t);
      } else {
        assert u in Uses(c.pkg, file.messages[..n - 1], file.services);
        WantedIsReachable(c, own, file, n - 1, t);
      }
    }
  }

  /** Nothing is copied that the package does not need. */
  lemma CopiesAreReachable(c: Corpus, own: File, file: File)
    requires WellFormed(c, own) && Traced(c, own, file)
    ensures forall i :: |own.messages| <= i < |file.messages| ==> Reachable(c, own, file.messages[i].typeName)
    ensures forall i :: |own.enums| <= i < |file.enums| ==> Reachable(c, own, file.enums[i].typeName)
  {
    forall i | |own.messages| <= i < |file.messages| ensures Reachable(c, own, file.messages[i].typeName) {
      assert CopiedMessage(c, file, i);
      WantedIsReachable(c, own, file, i, file.messages[i].typeName);
    }
    forall i | |own.enums| <= i < |file.enums| ensures Reachable(c, own, file.enums[i].typeName) {
      assert CopiedEnum(c, file, i);
      assert file.messages[..|file.messages|] == file.messages;
      WantedIsReachable(c, own, file, |file.messages|, file.enums[i].typeName);
    }
  }

  // ---------------------------------------------------------------- printing

  datatype Printed = Token(ref: string) | Relative(suffix: string) | Short(short: string) | Full(name: TypeName)

  /** resolveFieldTypeWithPkg on a named type, and (with a blank parent) resolveMethodType. */
  function Print(c: Corpus, copied: map<string, Origin>, u: Use): Printed {
    match c.resolve(u.at)
    case None => Token(u.at.ref)
    case Some(t) =>
      if u.parent != "" && u.parent + "." <= t.short then Relative(t.short[|u.parent| + 1..])
      else if t.pkg == c.pkg || t.pkg == "" then Short(t.short)
      else if t.short in copied then Short(t.short)
      else Full(t)
  }

  /** A file that is closed names no package but Google's. */
  lemma ClosedFileNamesNoForeignPackage(c: Corpus, file: File, copied: map<string, Origin>, u: Use)
    requires Closed(c, file, copied) && u in Uses(c.pkg, file.messages, file.services)
    ensures Print(c, copied, u).Full? ==> IsGoogle(Print(c, copied, u).name.pkg)
  {
    if Print(c, copied, u).Full? {
      var t := c.resolve(u.at).value;
      assert Foreign(c.pkg, t) ==> Wants(c, u, t);
    }
  }
}
