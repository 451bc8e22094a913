/** Port mappings: the server parses them into listeners and remote texts, and the client resolves those texts. */
module PortMapping {
  import opened Base
  import opened GoStrings

  datatype Listener = Listener(local: string, remote: string)

  /** What one mapping starts; a fatal mapping ends the process. */
  datatype Mapped = Listeners(list: seq<Listener>) | Fatal

  predicate ValidPort(p: Option<int>) { p.Some? && 1 <= p.value <= 65535 }

  /** The bounds of "a-b". */
  function Range(text: string): (r: Option<(nat, nat)>)
    ensures r.Some? ==> 1 <= r.value.0 <= r.value.1 <= 65535
  {
    var parts := Split(text, '-');
    if |parts| != 2 then None else
    var start, end := Atoi(Trim(parts[0])), Atoi(Trim(parts[1]));
    if ValidPort(start) && ValidPort(end) && start.value <= end.value then Some((start.value, end.value)) else None
  }

  function LocalAddr(port: nat): string { ":" + Itoa(port) }

  /** One listener per port, in order; without a remote text each port stands for itself. */
  function PortListeners(start: nat, end: nat, remote: Option<string>): (list: seq<Listener>)
    requires start <= end
    ensures |list| == end - start + 1
    ensures forall i :: 0 <= i < |list| ==>
      list[i] == Listener(LocalAddr(start + i), if remote.Some? then remote.value else Itoa(start + i))
  {
    seq(end - start + 1, i requires 0 <= i =>
      Listener(LocalAddr(start + i), if remote.Some? then remote.value else Itoa(start + i)))
  }

  function MapOne(mapping: string): Mapped {
    var parts := Split(mapping, '=');
    if |parts| > 2 then Fatal else
    var local := Trim(parts[0]);
    if '-' in local then
      var range := Range(local);
      if range.None? then Fatal
      else Listeners(PortListeners(range.value.0, range.value.1, if |parts| == 2 then Some(Trim(parts[1])) else None))
    else
      var port := Atoi(local);
      if |parts| == 1 then
        if ValidPort(port) then Listeners([Listener(LocalAddr(port.value), local)]) else Fatal
      else if port.Some? && 1 < port.value < 65535 then Listeners([Listener(LocalAddr(port.value), Trim(parts[1]))])
      else Listeners([Listener(local, Trim(parts[1]))])
  }

  /** All mappings up to the first fatal one. */
  function MapAll(mappings: seq<string>): (seq<Listener>, bool) {
    if mappings == [] then ([], false) else
    match MapOne(mappings[0])
    case Fatal => ([], true)
    case Listeners(list) => var (rest, fatal) := MapAll(mappings[1..]); (list + rest, fatal)
  }

  /** startListeners for every port of a range. */
  method StartRange(start: nat, end: nat, remote: Option<string>) returns (list: seq<Listener>)
    requires start <= end
    ensures list == PortListeners(start, end, remote)
  {
    hide Itoa;
    list := [];
    for port := start to end + 1
      invariant list == PortListeners(start, end, remote)[..port - start]
    {
      var localAddr := ":" + Itoa(port);
      list := list + [Listener(localAddr, if remote.Some? then remote.value else Itoa(port))];
    }
  }

  /** The body of parsePortMappings' loop. */
  method StartMapping(mapping: string) returns (list: seq<Listener>, fatal: bool)
    ensures MapOne(mapping) == if fatal then Fatal else Listeners(list)
  {
    hide Split, Trim, Atoi, Itoa, Range;
    var parts := Split(mapping, '=');
    if |parts| > 2 {
      return [], true;
    }
    var local := Trim(parts[0]);
    var remote := if |parts| == 2 then Some(Trim(parts[1])) else None;
    if '-' in local {
      var range := Range(local);
      if range.None? {
        return [], true;
      }
      list := StartRange(range.value.0, range.value.1, remote);
      return list, false;
    }
    var port := Atoi(local);
    if remote.None? {
      if !ValidPort(port) {
        return [], true;
      }
      return [Listener(LocalAddr(port.value), local)], false;
    }
    var localAddr := local;
    if port.Some? && port.value > 1 && port.value < 65535 {
      localAddr := LocalAddr(port.value);
    }
    return [Listener(localAddr, remote.value)], false;
  }

  /** parsePortMappings. */
  method ParsePortMappings(ports: seq<string>) returns (started: seq<Listener>, fatal: bool)
    ensures (started, fatal) == MapAll(ports)
  {
    hide MapOne;
    started := [];
    assert ports[0..] == ports && started + MapAll(ports).0 == MapAll(ports).0;
    for k := 0 to |ports|
      invariant MapAll(ports) == (started + MapAll(ports[k..]).0, MapAll(ports[k..]).1)
    {
      assert ports[k..][0] == ports[k] && ports[k..][1..] == ports[k + 1..];
      ghost var before, rest := started, MapAll(ports[k + 1..]).0;
      var list;
      list, fatal := StartMapping(ports[k]);
      if fatal {
        assert MapAll(ports[k..]) == ([], true) && started + [] == started;
        return;
      }
      started := started + list;
      assert before + (list + rest) == started + rest;
    }
    assert ports[|ports|..] == [] && started + [] == started;
    fatal := false;
  }

  /** ResolveRemoteAddr on the client. */
  function ResolveRemoteAddr(remoteAddr: string): Option<(int, string)> {
    var parts := Split(remoteAddr, ':');
    var port := Atoi(if |parts| < 2 then parts[0] else parts[1]);
    if port.None? then None
    else Some((port.value, if |parts| < 2 then "127.0.0.1:" + Decimal(port.value) else remoteAddr))
  }

  // ---------------------------------------------------------------- end to end

  lemma ContainsDash(a: string, b: string)
    ensures '-' in a + "-" + b
  {
    assert (a + "-" + b)[|a|] == '-';
  }

  /** The bounds read from "a-b" are those of its two parts, with any spaces around them. */
  lemma RangeOfParts(a: string, b: string)
    requires Without(a, '-') && Without(b, '-')
    ensures var start, end := Atoi(Trim(a)), Atoi(Trim(b));
            Range(Trim(a + "-" + b)) ==
              if ValidPort(start) && ValidPort(end) && start.value <= end.value then Some((start.value, end.value)) else None
  {
    TrimAround(a, '-', b);
    TrimLeftFixed(a);
    TrimOfTrimRight(b);
    SplitAt(TrimLeft(a), '-', TrimRight(b));
    SplitWithout(TrimRight(b), '-');
  }

  lemma NoEquals(a: string, b: string)
    requires Without(a, '=') && Without(b, '=')
    ensures Without(a + "-" + b, '=')
  {
  }

  /** "a-b" starts one listener per port from a to b, in order, exactly when a and b are ports and a is not above b. */
  lemma RangeListens(a: string, b: string)
    requires Without(a, '-') && Without(b, '-') && Without(a, '=') && Without(b, '=')
    ensures var start, end := Atoi(Trim(a)), Atoi(Trim(b));
            MapOne(a + "-" + b) ==
              if ValidPort(start) && ValidPort(end) && start.value <= end.value
              then Listeners(PortListeners(start.value, end.value, None)) else Fatal
  {
    NoEquals(a, b);
    SplitWithout(a + "-" + b, '=');
    RangeOfParts(a, b);
    TrimAround(a, '-', b);
    ContainsDash(TrimLeft(a), TrimRight(b));
  }

  /** "a-b=R" sends R for every port of the range. */
  lemma RangeForwards(a: string, b: string, remote: string)
    requires Without(a, '-') && Without(b, '-') && Without(a, '=') && Without(b, '=') && Without(remote, '=')
    ensures var start, end := Atoi(Trim(a)), Atoi(Trim(b));
            MapOne(a + "-" + b + "=" + remote) ==
              if ValidPort(start) && ValidPort(end) && start.value <= end.value
              then Listeners(PortListeners(start.value, end.value, Some(Trim(remote)))) else Fatal
  {
    NoEquals(a, b);
    SplitAt(a + "-" + b, '=', remote);
    SplitWithout(remote, '=');
    RangeOfParts(a, b);
    TrimAround(a, '-', b);
    ContainsDash(TrimLeft(a), TrimRight(b));
  }

  /** The client resolves a bare numeral to that port of its own host. */
  lemma NumeralResolves(text: string)
    requires Atoi(text).Some?
    ensures ResolveRemoteAddr(text) == Some((Atoi(text).value, "127.0.0.1:" + Decimal(Atoi(text).value)))
  {
    NumeralChars(text, ':');
    SplitWithout(text, ':');
  }

  /** Range mappings end to end: the i-th listener is on port a+i, and the client resolves its text to that port. */
  lemma RangeEndToEnd(a: string, b: string, i: nat)
    requires Without(a, '-') && Without(b, '-') && Without(a, '=') && Without(b, '=')
    requires ValidPort(Atoi(Trim(a))) && ValidPort(Atoi(Trim(b))) && Atoi(Trim(a)).value + i <= Atoi(Trim(b)).value
    ensures var p := Atoi(Trim(a)).value + i;
            var mapped := MapOne(a + "-" + b);
            && mapped.Listeners? && |mapped.list| == Atoi(Trim(b)).value - Atoi(Trim(a)).value + 1
            && mapped.list[i].local == ":" + Itoa(p)
            && ResolveRemoteAddr(mapped.list[i].remote) == Some((p, "127.0.0.1:" + Itoa(p)))
  {
    hide MapOne, ResolveRemoteAddr, Atoi, Itoa;
    hide Trim;
    var p := Atoi(Trim(a)).value + i;
    RangeListens(a, b);
    AtoiItoa(p);
    NumeralResolves(Itoa(p));
  }

  /** A single numeral, in whatever form Atoi accepts, listens on its port and resolves to the same port on the client;
      any other text is fatal. */
  lemma SingleEndToEnd(text: string)
    requires Without(text, '-') && Without(text, '=')
    ensures var port := Atoi(Trim(text));
            if ValidPort(port) then
              MapOne(text) == Listeners([Listener(":" + Itoa(port.value), Trim(text))])
              && ResolveRemoteAddr(Trim(text)) == Some((port.value, "127.0.0.1:" + Itoa(port.value)))
            else MapOne(text) == Fatal
  {
    SplitWithout(text, '=');
    TrimWithout(text, '-');
    if Atoi(Trim(text)).Some? {
      NumeralResolves(Trim(text));
    }
  }

  /** "p=R" listens on ":p" only for ports strictly between 1 and 65535; the two end ports are taken for an address. */
  lemma SingleForwards(text: string, remote: string)
    requires Without(text, '-') && Without(text, '=') && Without(remote, '=') && ValidPort(Atoi(Trim(text)))
    ensures var p := Atoi(Trim(text)).value;
            && (MapOne(text + "=" + remote) == Listeners([Listener(":" + Itoa(p), Trim(remote))]) <==> 1 < p < 65535)
            && (p == 1 || p == 65535 ==> MapOne(text + "=" + remote) == Listeners([Listener(Trim(text), Trim(remote))]))
  {
    SplitAt(text, '=', remote);
    SplitWithout(remote, '=');
    TrimWithout(text, '-');
    var local := Trim(text);
    NumeralChars(local, ':');
    assert local != ":" + Itoa(Atoi(local).value) by {
      assert (":" + Itoa(Atoi(local).value))[0] == ':';
    }
  }

  /** The form "a-b:c" shown in README.en.md is always fatal. */
  lemma ColonRangeIsFatal(a: string, b: string, c: string)
    requires Without(a, '-') && Without(b, '-') && Without(c, '-')
    requires Without(a, '=') && Without(b, '=') && Without(c, '=')
    ensures MapOne(a + "-" + b + ":" + c) == Fatal
  {
    var tail := b + ":" + c;
    assert a + "-" + b + ":" + c == a + "-" + tail;
    RangeListens(a, tail);
    TrimAround(b, ':', c);
    var text := Trim(tail);
    assert text[|TrimLeft(b)|] == ':';
    if Atoi(text).Some? {
      NumeralChars(text, ':');
      assert false;
    }
  }

  /** A remote "host:port" passes through unchanged exactly when its port part is a number. */
  lemma HostPortResolves(host: string, port: string)
    requires Without(host, ':') && Without(port, ':')
    ensures ResolveRemoteAddr(host + ":" + port)
            == if Atoi(port).Some? then Some((Atoi(port).value, host + ":" + port)) else None
  {
    SplitAt(host, ':', port);
    SplitWithout(port, ':');
  }

  /** "local=remote" with a local text that is no port strictly between 1 and 65535 takes it for an address, as it is. */
  lemma AddressForwards(text: string, remote: string)
    requires Without(text, '-') && Without(text, '=') && Without(remote, '=')
    requires var port := Atoi(Trim(text)); port.None? || port.value <= 1 || port.value >= 65535
    ensures MapOne(text + "=" + remote) == Listeners([Listener(Trim(text), Trim(remote))])
  {
    SplitAt(text, '=', remote);
    SplitWithout(remote, '=');
    TrimWithout(text, '-');
  }

  /** More than one "=" is fatal. */
  lemma TwoEqualsIsFatal(a: string, b: string, c: string)
    requires Without(a, '=') && Without(b, '=')
    ensures MapOne(a + "=" + b + "=" + c) == Fatal
  {
    assert a + "=" + b + "=" + c == a + "=" + (b + "=" + c);
    SplitAt(a, '=', b + "=" + c);
    SplitAt(b, '=', c);
  }

  /** Spaces around the numerals of a mapping make no difference. */
  lemma SpacesIgnored(before: string, text: string, after: string)
    requires Blank(before) && Blank(after) && text != "" && !IsSpace(text[0]) && !IsSpace(text[|text| - 1])
    ensures Trim(before + text + after) == text
  {
    TrimSpaces(before, text, after);
  }

  /** Mappings are taken one after the other, each starting its own listeners, until one is fatal. */
  lemma {:induction false} MapAllInOrder(a: seq<string>, b: seq<string>)
    ensures MapAll(a + b) == if MapAll(a).1 then MapAll(a) else (MapAll(a).0 + MapAll(b).0, MapAll(b).1)
  {
    hide MapOne;
    if a == [] {
      assert a + b == b && MapAll(a).0 + MapAll(b).0 == MapAll(b).0;
    } else {
      assert (a + b)[1..] == a[1..] + b;
      MapAllInOrder(a[1..], b);
      if MapOne(a[0]).Listeners? && !MapAll(a).1 {
        var list := MapOne(a[0]).list;
        assert list + (MapAll(a[1..]).0 + MapAll(b).0) == (list + MapAll(a[1..]).0) + MapAll(b).0;
      }
    }
  }

  lemma MapAllOfOne(mapping: string)
    ensures MapAll([mapping]) == if MapOne(mapping).Fatal? then ([], true) else (MapOne(mapping).list, false)
  {
    hide MapOne;
    assert [mapping][1..] == [];
    if MapOne(mapping).Listeners? {
      assert MapOne(mapping).list + [] == MapOne(mapping).list;
    }
  }

  /** Only the text between the first two colons is read as the port, and the address passes through whole. */
  lemma ColonsResolve(host: string, port: string, rest: string)
    requires Without(host, ':') && Without(port, ':')
    ensures ResolveRemoteAddr(host + ":" + port + ":" + rest)
            == if Atoi(port).Some? then Some((Atoi(port).value, host + ":" + port + ":" + rest)) else None
  {
    var addr := host + ":" + port + ":" + rest;
    assert addr == host + ":" + (port + ":" + rest);
    SplitAt(host, ':', port + ":" + rest);
    SplitAt(port, ':', rest);
  }
}
