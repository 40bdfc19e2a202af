/**
 wifiPayload on maps as the operator has them, shared by reference
 (internal/controller/apply.go): the payload is a copy whose networks nothing else can
 reach, so putting passwords into it changes no rendered map.
 */
module WifiMaps {
  import opened Wrappers
  import opened Json
  import opened Fixpoint

  /** A map held by reference; its values are plain, or further such maps. */
  class Node {
    var fields: map<string, Value>

    constructor (m: map<string, Value>)
      ensures fields == m
    {
      fields := m;
    }
  }

  /** Whatever is no object. */
  type Scalar = j: Json | !j.Obj? witness Null

  datatype Value = Plain(json: Scalar) | Map(node: Node)

  /** The value as it reads, down to a depth at which maps are not opened any more. */
  ghost function Read(v: Value, depth: nat): Json
    reads *
    decreases depth
  {
    match v
    case Plain(j) => j
    case Map(n) => if depth == 0 then Null else Obj(map k | k in n.fields :: Read(n.fields[k], depth - 1))
  }

  lemma ReadAt(n: Node, depth: nat, k: string)
    requires depth > 0
    ensures Read(Map(n), depth).Obj?
    ensures Get(Read(Map(n), depth).fields, k) == if k in n.fields then Some(Read(n.fields[k], depth - 1)) else None
  {
  }

  /** The same plain value, or another map with the same fields. */
  ghost predicate Copied(v: Value, c: Value)
    reads *
  {
    match v
    case Plain(_) => c == v
    case Map(n) => c.Map? && c.node.fields == n.fields
  }

  lemma CopiedReads(v: Value, c: Value, depth: nat)
    requires Copied(v, c)
    ensures Read(c, depth) == Read(v, depth)
  {
  }

  /** Key by key the same, or copied. */
  ghost predicate CopiedFields(m: Node, c: Node)
    reads *
  {
    c.fields.Keys == m.fields.Keys && forall k :: k in m.fields ==> Copied(m.fields[k], c.fields[k])
  }

  /** A network's map copied, and the maps in it too. */
  method CopyNetwork(m: Node) returns (c: Node)
    ensures fresh(c) && CopiedFields(m, c)
    ensures forall k :: k in c.fields && c.fields[k].Map? ==> fresh(c.fields[k].node) && c.fields[k].node != c
  {
    c := new Node(m.fields);
    var rest := m.fields.Keys;
    while rest != {}
      invariant rest <= m.fields.Keys && c.fields.Keys == m.fields.Keys && fresh(c)
      invariant forall k :: k in rest ==> c.fields[k] == m.fields[k]
      invariant forall k :: k in m.fields && k !in rest ==> Copied(m.fields[k], c.fields[k])
      invariant forall k :: k in c.fields && k !in rest && c.fields[k].Map? ==> fresh(c.fields[k].node) && c.fields[k].node != c
      decreases rest
    {
      var k :| k in rest;
      rest := rest - {k};
      if m.fields[k].Map? {
        var inner := new Node(m.fields[k].node.fields);
        c.fields := c.fields[k := Map(inner)];
      }
    }
  }

  /** A value of the section copied: the same plain value, or a copied network. */
  ghost predicate CopiedNetwork(v: Value, c: Value)
    reads *
  {
    match v
    case Plain(_) => c == v
    case Map(m) => c.Map? && CopiedFields(m, c.node)
  }

  /** Some field of the map is that map. */
  ghost predicate Holds(c: Node, n: Node)
    reads c
  {
    exists k :: k in c.fields && c.fields[k] == Map(n)
  }

  /** The payload's networks are its own: not the payload itself, not each other, and not inside one another. */
  ghost predicate Own(out: Node)
    reads *
  {
    && (forall k :: k in out.fields && out.fields[k].Map? ==> out.fields[k].node != out)
    && (forall j, k :: j in out.fields && k in out.fields && out.fields[j].Map? && out.fields[k].Map? ==>
          (j != k ==> out.fields[j].node != out.fields[k].node) && !Holds(out.fields[j].node, out.fields[k].node))
  }

  /** The maps a payload is made of are new: itself, its networks, and the maps in those. */
  twostate predicate Made(new out: Node)
    reads *
  {
    && fresh(out)
    && (forall k :: k in out.fields && out.fields[k].Map? ==> fresh(out.fields[k].node))
    && (forall k, i :: k in out.fields && out.fields[k].Map? && i in out.fields[k].node.fields && out.fields[k].node.fields[i].Map? ==>
          fresh(out.fields[k].node.fields[i].node))
  }

  const NO_PASSWORDS := WifiPasswords("", "")

  /** The rendered section copied, network by network. */
  method CopySection(rendered: Node) returns (out: Node)
    ensures Made(out) && Own(out) && IsPayload(rendered, out, NO_PASSWORDS) && Apart(rendered, out)
  {
    out := CopyFields(rendered);
    CopiedIsPayload(rendered, out);
  }

  lemma CopiedIsPayload(rendered: Node, out: Node)
    requires out.fields.Keys == rendered.fields.Keys && forall k :: k in rendered.fields ==> CopiedNetwork(rendered.fields[k], out.fields[k])
    ensures IsPayload(rendered, out, NO_PASSWORDS)
  {
  }

  method CopyFields(rendered: Node) returns (out: Node)
    ensures Made(out) && Own(out) && out.fields.Keys == rendered.fields.Keys
    ensures forall k :: k in rendered.fields ==> CopiedNetwork(rendered.fields[k], out.fields[k])
  {
    out := new Node(map[]);
    var rest := rendered.fields.Keys;
    while rest != {}
      invariant rest <= rendered.fields.Keys && Made(out) && Own(out) && out.fields.Keys == rendered.fields.Keys - rest
      invariant forall k :: k in out.fields ==> CopiedNetwork(rendered.fields[k], out.fields[k])
      decreases rest
    {
      var k :| k in rest;
      rest := rest - {k};
      var v := CopyValue(rendered.fields[k]);
      out.fields := out.fields[k := v];
    }
  }

  method CopyValue(v: Value) returns (c: Value)
    ensures CopiedNetwork(v, c) && (c.Map? ==> fresh(c.node))
    ensures c.Map? ==> forall i :: i in c.node.fields && c.node.fields[i].Map? ==> fresh(c.node.fields[i].node) && c.node.fields[i].node != c.node
  {
    c := v;
    if v.Map? {
      var m := CopyNetwork(v.node);
      c := Map(m);
    }
  }

  function WithPass(m: map<string, Value>, pass: string): map<string, Value>
  {
    if pass == "" then m else m["pass" := Plain(Str(pass))]
  }

  function PassFor(net: string, pw: WifiPasswords): string
  {
    if net == "sta" then pw.sta else if net == "sta1" then pw.sta1 else ""
  }

  /** The network copied, with its password. */
  ghost predicate CopiedWithPass(m: Node, c: Node, pass: string)
    reads *
  {
    && c.fields.Keys == WithPass(m.fields, pass).Keys
    && (pass != "" ==> c.fields["pass"] == Plain(Str(pass)))
    && forall k :: k in m.fields && (k == "pass" ==> pass == "") ==> Copied(m.fields[k], c.fields[k])
  }

  ghost predicate IsPayload(rendered: Node, out: Node, pw: WifiPasswords)
    reads *
  {
    && out.fields.Keys == rendered.fields.Keys
    && forall k :: k in rendered.fields ==>
         match rendered.fields[k]
         case Plain(_) => out.fields[k] == rendered.fields[k]
         case Map(m) => out.fields[k].Map? && CopiedWithPass(m, out.fields[k].node, PassFor(k, pw))
  }

  /** No network of the payload is the rendered section, or in it. */
  ghost predicate Apart(rendered: Node, out: Node)
    reads *
  {
    forall k :: k in out.fields && out.fields[k].Map? ==> Separate(rendered, out.fields[k].node)
  }

  ghost predicate Separate(rendered: Node, c: Node)
    reads *
  {
    c != rendered && forall j :: j in rendered.fields && rendered.fields[j].Map? ==> rendered.fields[j].node != c && !Holds(rendered.fields[j].node, c)
  }

  function SetPass(pw: WifiPasswords, net: string, pass: string): WifiPasswords
  {
    if net == "sta" then pw.(sta := pass) else pw.(sta1 := pass)
  }

  /** A password put into a network of the payload in place, if there is such a network and a password for it. */
  method InjectInto(ghost rendered: Node, out: Node, net: string, pass: string, ghost before: WifiPasswords)
    requires Own(out) && Apart(rendered, out) && IsPayload(rendered, out, before) && (net == "sta" || net == "sta1") && PassFor(net, before) == ""
    modifies set k | k in out.fields && out.fields[k].Map? :: out.fields[k].node
    ensures out.fields == old(out.fields) && Own(out) && Apart(rendered, out)
    ensures IsPayload(rendered, out, SetPass(before, net, pass))
    ensures forall k, i :: k in out.fields && out.fields[k].Map? && i in out.fields[k].node.fields && out.fields[k].node.fields[i].Map? ==>
              i in old(out.fields[k].node.fields) && out.fields[k].node.fields[i] == old(out.fields[k].node.fields)[i]
  {
    if pass == "" {
      return;
    }
    if net in out.fields && out.fields[net].Map? {
      PutPass(rendered, out, out.fields[net].node, net, pass, before);
    }
  }

  /** The write itself: one network's map changes, by one field that holds no map. */
  method PutPass(ghost rendered: Node, ghost out: Node, m: Node, ghost net: string, pass: string, ghost before: WifiPasswords)
    requires Own(out) && Apart(rendered, out) && IsPayload(rendered, out, before) && (net == "sta" || net == "sta1") && PassFor(net, before) == ""
    requires pass != "" && net in out.fields && out.fields[net] == Map(m)
    modifies m
    ensures m.fields == old(m.fields)["pass" := Plain(Str(pass))]
    ensures Own(out) && Apart(rendered, out) && IsPayload(rendered, out, SetPass(before, net, pass))
  {
    ghost var held := m.fields;
    m.fields := m.fields["pass" := Plain(Str(pass))];
    assert forall n: Node :: Holds(m, n) ==> old(Holds(m, n)) by {
      assert forall k :: k in m.fields && m.fields[k].Map? ==> k in held && held[k] == m.fields[k];
    }
    forall k | k in rendered.fields && rendered.fields[k].Map?
      ensures out.fields[k].Map? && CopiedWithPass(rendered.fields[k].node, out.fields[k].node, PassFor(k, SetPass(before, net, pass)))
    {
      assert old(CopiedWithPass(rendered.fields[k].node, out.fields[k].node, PassFor(k, before)));
    }
  }

  lemma NetworkReads(m: Node, c: Node, pass: string, depth: nat)
    requires depth > 0 && CopiedWithPass(m, c, pass)
    ensures
      var was := Read(Map(m), depth).fields;
      Read(Map(c), depth) == Obj(if pass == "" then was else was["pass" := Str(pass)])
  {
    ReadAt(m, depth, "");
    ReadAt(c, depth, "");
    var was, now := Read(Map(m), depth).fields, Read(Map(c), depth).fields;
    forall k ensures Get(now, k) == Get(if pass == "" then was else was["pass" := Str(pass)], k) {
      ReadAt(m, depth, k);
      ReadAt(c, depth, k);
      if k == "pass" && pass != "" {
        assert Read(c.fields[k], depth - 1) == Str(pass);
      } else if k in m.fields {
        CopiedReads(m.fields[k], c.fields[k], depth - 1);
      }
    }
    SameObject(now, if pass == "" then was else was["pass" := Str(pass)]);
  }

  /** What wifiPayload makes of each field. */
  lemma PayloadAt(m: Object, pw: WifiPasswords, k: string)
    ensures Get(WifiPayload(Obj(m), pw).fields, k) ==
              if k in m && m[k].Obj? && PassFor(k, pw) != "" then Some(Obj(m[k].fields["pass" := Str(PassFor(k, pw))])) else Get(m, k)
  {
  }

  lemma FieldReads(rendered: Node, out: Node, pw: WifiPasswords, depth: nat, k: string)
    requires depth > 1 && IsPayload(rendered, out, pw)
    requires Read(Map(rendered), depth).Obj? && Read(Map(out), depth).Obj?
    ensures Get(Read(Map(out), depth).fields, k) == Get(WifiPayload(Obj(Read(Map(rendered), depth).fields), pw).fields, k)
  {
    ReadAt(rendered, depth, k);
    ReadAt(out, depth, k);
    PayloadAt(Read(Map(rendered), depth).fields, pw, k);
    if k in rendered.fields {
      match rendered.fields[k]
      case Plain(_) =>
      case Map(m) =>
        ReadAt(m, depth - 1, "");
        NetworkReads(m, out.fields[k].node, PassFor(k, pw), depth - 1);
    }
  }

  /** Read down to any depth that opens the networks, the payload is what WifiPayload makes of the rendered section. */
  lemma PayloadReads(rendered: Node, out: Node, pw: WifiPasswords, depth: nat)
    requires depth > 1 && IsPayload(rendered, out, pw)
    ensures Read(Map(out), depth) == WifiPayload(Read(Map(rendered), depth), pw)
  {
    ReadAt(rendered, depth, "");
    ReadAt(out, depth, "");
    var was, now := Read(Map(rendered), depth).fields, Read(Map(out), depth).fields;
    forall k ensures Get(now, k) == Get(WifiPayload(Obj(was), pw).fields, k) {
      FieldReads(rendered, out, pw, depth, k);
    }
    SameObject(now, WifiPayload(Obj(was), pw).fields);
  }

  /**
   wifiPayload: a fresh copy of the section, with the passwords. No map there was before is
   changed, and none of them is the payload or one of its networks.
   */
  method MakePayload(rendered: Node, pw: WifiPasswords, ghost depth: nat) returns (out: Node)
    ensures Made(out) && IsPayload(rendered, out, pw)
    ensures depth > 1 ==> Read(Map(out), depth) == WifiPayload(Read(Map(rendered), depth), pw)
  {
    out := CopySection(rendered);
    InjectInto(rendered, out, "sta", pw.sta, NO_PASSWORDS);
    InjectInto(rendered, out, "sta1", pw.sta1, WifiPasswords(pw.sta, ""));
    if depth > 1 {
      PayloadReads(rendered, out, pw, depth);
    }
  }
}
