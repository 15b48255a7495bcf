/** The plugin's side of the controller protocol: the four command texts it
    sends, the `'","'.join` used for zone lists, and the reading of the three
    replies it parses (zones, patternFileList, ledPower). */
module Codec {

  import opened JsonData

  const QueryZones := "{\"cmd\":\"toCtlrGet\",\"get\":[[\"zones\"]]}"
  const QueryPatterns := "{\"cmd\":\"toCtlrGet\",\"get\":[[\"patternFileList\"]]}"
  const QueryPower := "{\"cmd\":\"toCtlrGet\",\"get\":[[\"ledPower\"]]}"

  // The fixed pieces of the toCtlrSet command, around the pattern, the state digit and the zones.
  const SetHead := "{\"cmd\":\"toCtlrSet\",\"runPattern\":{\"file\":\""
  const SetState := "\",\"data\":\"\",\"id\":\"\",\"state\":"
  const SetZones := ",\"zoneName\":[\""
  const SetTail := "\"]}}"

  /** The separator the plugin joins zone names with. */
  const ZoneSeparator := "\",\""

  /** Python's `sep.join(xs)`. */
  function JoinWith(sep: string, xs: seq<string>): string
    decreases |xs|
  {
    if |xs| == 0 then ""
    else if |xs| == 1 then xs[0]
    else xs[0] + sep + JoinWith(sep, xs[1..])
  }

  /** `'","'.join(zones)`, the form in which the plugin keeps its zones. */
  function Join(zones: seq<string>): (s: string)
    ensures s == "" <==> zones == [] || zones == [""]
  {
    JoinWith(ZoneSeparator, zones)
  }

  /** Python's `s.split('","')`: the inverse of `Join` for names free of `"`. */
  function Split(s: string): (parts: seq<string>)
    ensures |parts| >= 1
    decreases |s|
  {
    if ZoneSeparator <= s then [""] + Split(s[|ZoneSeparator|..])
    else if s == [] then [""]
    else
      var rest := Split(s[1..]);
      [[s[0]] + rest[0]] + rest[1..]
  }

  lemma {:induction false} SplitAfterQuoteFree(x: string, t: string)
    requires '"' !in x
    ensures Split(x + t) == [x + Split(t)[0]] + Split(t)[1..]
    decreases |x|
  {
    if x == [] {
      assert x + t == t;
      assert x + Split(t)[0] == Split(t)[0];
      assert Split(t) == [Split(t)[0]] + Split(t)[1..];
    } else {
      var s := x + t;
      assert s[0] == x[0] && s[0] != '"';
      assert !(ZoneSeparator <= s);
      assert s[1..] == x[1..] + t;
      SplitAfterQuoteFree(x[1..], t);
      assert [s[0]] + (x[1..] + Split(t)[0]) == x + Split(t)[0];
    }
  }

  /** Splitting the joined zones gives back the zone names, as long as no
      name contains a double quote. */
  lemma {:induction false} SplitJoin(zones: seq<string>)
    requires zones != []
    requires forall i :: 0 <= i < |zones| ==> '"' !in zones[i]
    ensures Split(Join(zones)) == zones
    decreases |zones|
  {
    if |zones| == 1 {
      SplitAfterQuoteFree(zones[0], "");
      assert zones[0] + "" == zones[0];
      assert Split("") == [""];
    } else {
      var rest := JoinWith(ZoneSeparator, zones[1..]);
      assert Join(zones) == zones[0] + (ZoneSeparator + rest);
      SplitAfterQuoteFree(zones[0], ZoneSeparator + rest);
      assert ZoneSeparator <= ZoneSeparator + rest;
      assert (ZoneSeparator + rest)[|ZoneSeparator|..] == rest;
      assert Split(ZoneSeparator + rest) == [""] + Split(rest);
      SplitJoin(zones[1..]);
      assert zones[0] + "" == zones[0];
      assert zones == [zones[0]] + zones[1..];
    }
  }

  function Quote(s: string): string {
    "\"" + s + "\""
  }

  function QuoteAll(xs: seq<string>): (qs: seq<string>)
    ensures |qs| == |xs| && forall i :: 0 <= i < |xs| ==> qs[i] == Quote(xs[i])
  {
    seq(|xs|, i requires 0 <= i < |xs| => Quote(xs[i]))
  }

  /** Wrapping the joined zones in quotes, as the toCtlrSet command does,
      writes one quoted string per zone separated by commas: the controller
      receives a list of zone names, not a single joined name. */
  lemma {:induction false} QuotedJoinIsList(zones: seq<string>)
    requires zones != []
    ensures Quote(Join(zones)) == JoinWith(",", QuoteAll(zones))
    decreases |zones|
  {
    if |zones| > 1 {
      var rest := JoinWith(ZoneSeparator, zones[1..]);
      QuotedJoinIsList(zones[1..]);
      assert QuoteAll(zones)[1..] == QuoteAll(zones[1..]);
      calc {
        Quote(Join(zones));
        "\"" + (zones[0] + ZoneSeparator + rest) + "\"";
        ("\"" + zones[0] + "\"") + "," + ("\"" + rest + "\"");
        Quote(zones[0]) + "," + Quote(Join(zones[1..]));
        QuoteAll(zones)[0] + "," + JoinWith(",", QuoteAll(zones[1..]));
      }
    }
  }

  /** The toCtlrSet command of `on()` (`state` 1) and `off()` (`state` 0). */
  function SetPower(pattern: string, on: bool, zones: string): (cmd: string)
    // the state digit, 1 for on and 0 for off, follows the pattern and a fixed piece
    ensures |cmd| == |SetHead| + |pattern| + |SetState| + 1 + |SetZones| + |zones| + |SetTail|
    ensures cmd[|SetHead| + |pattern| + |SetState|] == (if on then '1' else '0')
  {
    SetHead + pattern + SetState + (if on then "1" else "0") + SetZones + zones + SetTail
  }

  /** The fields a toCtlrSet command carries. */
  datatype PowerCommand = PowerCommand(pattern: string, on: bool, zones: string)

  /** The length of the longest prefix of `s` without a double quote. */
  function QuoteFreeLength(s: string): (n: nat)
    ensures n <= |s| && '"' !in s[..n] && (n < |s| ==> s[n] == '"')
    decreases |s|
  {
    if s == [] || s[0] == '"' then 0
    else
      var n' := QuoteFreeLength(s[1..]);
      assert s[..n' + 1] == [s[0]] + s[1..][..n'];
      n' + 1
  }

  /** Reads a toCtlrSet command back: the pattern runs up to the first double
      quote, the zones up to the closing `"]}}`. */
  function DecodeSetPower(cmd: string): Option<PowerCommand> {
    if !(SetHead <= cmd) then None
    else
      var body := cmd[|SetHead|..];
      var n := QuoteFreeLength(body);
      var tail := body[n..];
      var z := |SetState| + 1 + |SetZones|;
      if |tail| < z + |SetTail| || tail[..|SetState|] != SetState
        || tail[|SetState| + 1..z] != SetZones || tail[|tail| - |SetTail|..] != SetTail then None
      else if tail[|SetState|] == '1' then Some(PowerCommand(body[..n], true, tail[z..|tail| - |SetTail|]))
      else if tail[|SetState|] == '0' then Some(PowerCommand(body[..n], false, tail[z..|tail| - |SetTail|]))
      else None
  }

  /** The pattern is read up to the first double quote after it. */
  lemma QuoteFreeLengthAt(pattern: string, tail: string)
    requires '"' !in pattern && tail != [] && tail[0] == '"'
    ensures QuoteFreeLength(pattern + tail) == |pattern|
  {
    var body := pattern + tail;
    assert body[|pattern|] == '"';
  }

  /** The fixed pieces after the pattern sit at fixed offsets. */
  lemma SetPowerTail(d: char, zones: string)
    ensures var tail := SetState + [d] + SetZones + zones + SetTail;
            var z := |SetState| + 1 + |SetZones|;
            |tail| >= z + |SetTail| &&
            tail[..|SetState|] == SetState && tail[|SetState|] == d &&
            tail[|SetState| + 1..z] == SetZones &&
            tail[z..|tail| - |SetTail|] == zones &&
            tail[|tail| - |SetTail|..] == SetTail
  {
  }

  lemma Regroup<T>(a: seq<T>, b: seq<T>, c: seq<T>, d: seq<T>, e: seq<T>, f: seq<T>, g: seq<T>)
    ensures a + b + c + d + e + f + g == a + (b + (c + d + e + f + g))
  {
  }

  /** The command is the fixed head, the pattern, and a tail that starts
      with a double quote. */
  lemma SetPowerShape(pattern: string, on: bool, zones: string)
    ensures SetPower(pattern, on, zones) ==
              SetHead + (pattern + (SetState + [if on then '1' else '0'] + SetZones + zones + SetTail))
  {
    var digit := if on then "1" else "0";
    assert digit == [if on then '1' else '0'];
    Regroup(SetHead, pattern, SetState, digit, SetZones, zones, SetTail);
  }

  /** After the head, the decoder finds the pattern up to the tail's first character. */
  lemma DecodeAfterHead(cmd: string, pattern: string, tail: string)
    requires cmd == SetHead + (pattern + tail)
    requires '"' !in pattern && tail != [] && tail[0] == '"'
    ensures SetHead <= cmd && cmd[|SetHead|..] == pattern + tail
    ensures QuoteFreeLength(pattern + tail) == |pattern|
    ensures (pattern + tail)[..|pattern|] == pattern && (pattern + tail)[|pattern|..] == tail
  {
    QuoteFreeLengthAt(pattern, tail);
  }

  /** The command carries exactly the pattern, state and zones it was built
      from, whenever the pattern name has no double quote. */
  lemma SetPowerRoundTrip(pattern: string, on: bool, zones: string)
    requires '"' !in pattern
    ensures DecodeSetPower(SetPower(pattern, on, zones)) == Some(PowerCommand(pattern, on, zones))
  {
    var d := if on then '1' else '0';
    var tail := SetState + [d] + SetZones + zones + SetTail;
    SetPowerShape(pattern, on, zones);
    DecodeAfterHead(SetPower(pattern, on, zones), pattern, tail);
    SetPowerTail(d, zones);
  }

  /** The plugin's reading of one entry of `patternFileList`. */
  datatype Entry =
    | Skipped        // `name` is missing or falsy
    | Path(path: string)  // `folders + "/" + name`
    | Broken         // not a dict, or a named entry whose `folders` or `name` is not a string

  function EntryPath(e: Json): (entry: Entry)
    ensures !e.JObj? ==> entry.Broken?
    ensures e.JObj? ==> (entry.Skipped? <==> !Truthy(DictGet(e.members, "name")))
    ensures entry.Path? ==>
              DictGet(e.members, "folders").JStr? && DictGet(e.members, "name").JStr? &&
              entry.path == DictGet(e.members, "folders").s + "/" + DictGet(e.members, "name").s
    // a named dict whose `folders` and `name` are strings reads as their path
    ensures e.JObj? && Truthy(DictGet(e.members, "name")) &&
            DictGet(e.members, "folders").JStr? && DictGet(e.members, "name").JStr? ==>
              entry == Path(DictGet(e.members, "folders").s + "/" + DictGet(e.members, "name").s)
  {
    match e
    case JObj(ms) =>
      var name := DictGet(ms, "name");
      if !Truthy(name) then Skipped
      else (match (DictGet(ms, "folders"), name)
            case (JStr(f), JStr(n)) => Path(f + "/" + n)
            case _ => Broken)
    case _ => Broken
  }

  /** The readings of the entries of a list, in order. */
  function Entries(es: seq<Json>): (entries: seq<Entry>)
    ensures |entries| == |es| && forall i :: 0 <= i < |es| ==> entries[i] == EntryPath(es[i])
  {
    seq(|es|, i requires 0 <= i < |es| => EntryPath(es[i]))
  }

  /** Collecting the paths of read entries: every path in order, or None when
      some entry raised. */
  function Collect(entries: seq<Entry>): (ps: Option<seq<string>>)
    ensures ps.Some? <==> Broken !in entries
    ensures ps.Some? ==> forall p :: p in ps.value <==> Path(p) in entries
    decreases |entries|
  {
    if entries == [] then Some([])
    else
      var rest := Collect(entries[1..]);
      assert entries == [entries[0]] + entries[1..];
      match entries[0]
      case Broken => None
      case Skipped => rest
      case Path(p) => if rest.Some? then Some([p] + rest.value) else None
  }

  /** The list comprehension over a list of entries: every named entry's path
      in order, or None if evaluating some entry raises. */
  function EntryPaths(es: seq<Json>): (ps: Option<seq<string>>)
    ensures ps.Some? <==> forall i :: 0 <= i < |es| ==> !EntryPath(es[i]).Broken?
    ensures ps.Some? ==> forall p :: p in ps.value <==> exists i :: 0 <= i < |es| && EntryPath(es[i]) == Path(p)
  {
    var entries := Entries(es);
    assert Broken in entries <==> exists i :: 0 <= i < |es| && EntryPath(es[i]).Broken?;
    Collect(entries)
  }

  /** The valid pattern paths built from the value of `patternFileList`, or
      None when building them raises. Iterating a string or a dict yields
      strings, which have no `.get`, so only an empty one gets through; None,
      booleans and numbers are not iterable. */
  function PatternPaths(list: Json): (ps: Option<seq<string>>)
    ensures list.JArr? ==> ps == EntryPaths(list.elems)
    // any other value is iterated without raising only when it is an empty
    // string or dict, and then yields no path
    ensures !list.JArr? ==> (ps.Some? <==> (list.JStr? || list.JObj?) && !Truthy(list))
    ensures !list.JArr? && ps.Some? ==> ps.value == []
  {
    match list
    case JArr(es) => EntryPaths(es)
    case JStr(s) => if s == "" then Some([]) else None
    case JObj(ms) => if ms == [] then Some([]) else None
    case _ => None
  }

  /** True iff the patternFileList reply lists `pattern` as a valid path. */
  predicate Listed(pattern: string, reply: Json)
    // only a dict whose patternFileList is an array can list a pattern
    ensures Listed(pattern, reply) ==>
              reply.JObj? && DictGet(reply.members, "patternFileList").JArr? &&
              exists i :: 0 <= i < |DictGet(reply.members, "patternFileList").elems| &&
                          EntryPath(DictGet(reply.members, "patternFileList").elems[i]) == Path(pattern)
  {
    reply.JObj? &&
    match PatternPaths(DictGet(reply.members, "patternFileList"))
    case Some(ps) => pattern in ps
    case None => false
  }

  /** A pattern is listed by a reply whose patternFileList is an array exactly
      when no entry is broken and some named entry spells the pattern. */
  lemma ListedIff(pattern: string, ms: seq<(string, Json)>, es: seq<Json>)
    requires DictGet(ms, "patternFileList") == JArr(es)
    ensures Listed(pattern, JObj(ms)) <==>
              (forall i :: 0 <= i < |es| ==> !EntryPath(es[i]).Broken?) &&
              exists i :: 0 <= i < |es| && EntryPath(es[i]) == Path(pattern)
  {
  }

  /** The zone names of a zones reply: the keys of its `zones` dict in
      received order, or None when `.get('zones').keys()` raises. */
  function ZoneNames(reply: Json): (names: Option<seq<string>>)
    ensures names.Some? <==> reply.JObj? && DictGet(reply.members, "zones").JObj?
    ensures names.Some? ==> names.value == Keys(DictGet(reply.members, "zones").members)
    ensures names.Some? ==> Distinct(names.value)
  {
    if reply.JObj? && DictGet(reply.members, "zones").JObj?
    then Some(Keys(DictGet(reply.members, "zones").members))
    else None
  }

  /** The truthiness of `ledPower` in a ledPower reply, or None when the reply
      is not a dict (so `.get` raises). */
  function LedPower(reply: Json): (power: Option<bool>)
    ensures power.Some? <==> reply.JObj?
    ensures power.Some? ==> (power.value <==> Truthy(DictGet(reply.members, "ledPower")))
    ensures power == Some(true) ==> DictGet(reply.members, "ledPower") != JNull
    ensures reply.JObj? && "ledPower" !in Keys(reply.members) ==> power == Some(false)
  {
    if reply.JObj? then Some(Truthy(DictGet(reply.members, "ledPower"))) else None
  }
}
