/** The JellyFish device adapter: one emulated on/off device that drives a
    set of zones of a JellyFish lighting controller. It keeps two pieces of
    mutable state, the configured pattern and the zones, and before every
    power command it resolves the zones (when unconfigured) and then checks
    the pattern against the controller's pattern list. */
module Plugin {

  import opened JsonData
  import opened Codec
  import opened Transport

  const DefaultControllerIp := "192.168.3.1"

  /** What a Python call does: return a value, or let an exception escape. */
  datatype Call<+T> = Returned(value: T) | Raised

  /** The zone names that configure_zones takes from a zones exchange, or None
      when it raises (no reply, no JSON, not a dict, no `zones` dict). */
  function ZonesReply(r: Response): (names: Option<seq<string>>)
    ensures names.Some? <==> r.Parsed? && r.value.JObj? && DictGet(r.value.members, "zones").JObj?
    ensures names.Some? ==> names.value == Keys(DictGet(r.value.members, "zones").members)
    ensures names.Some? ==> Distinct(names.value)
  {
    match r
    case Parsed(j) => ZoneNames(j)
    case _ => None
  }

  /** The pattern that validate_pattern leaves after a patternFileList
      exchange with outcome `r`. */
  function ValidatedPattern(pattern: string, r: Response): (p: string)
    ensures p == pattern || p == ""
    ensures p != "" ==> r.Parsed? && Listed(p, r.value)
    ensures pattern != "" ==> (p == pattern <==> r.Parsed? && Listed(pattern, r.value))
  {
    if r.Parsed? && Listed(pattern, r.value) then pattern else ""
  }

  /** A `patternFileList` that is not an array clears the pattern: None, a
      boolean or a number is not iterable, a non-empty string or dict yields
      strings without `.get`, and an empty one lists nothing. */
  lemma NonListClears(pattern: string, ms: seq<(string, Json)>)
    requires !DictGet(ms, "patternFileList").JArr?
    ensures ValidatedPattern(pattern, Parsed(JObj(ms))) == ""
  {
  }

  /** A reply without a `patternFileList` member clears the pattern. */
  lemma MissingListClears(pattern: string, ms: seq<(string, Json)>)
    requires forall i :: 0 <= i < |ms| ==> ms[i].0 != "patternFileList"
    ensures ValidatedPattern(pattern, Parsed(JObj(ms))) == ""
  {
    MissingNameIsFalsy(ms, "patternFileList");
    NonListClears(pattern, ms);
  }

  /** Validating again against the same controller answer changes nothing;
      once cleared, the pattern stays cleared whatever the answer. */
  lemma ValidateIdempotent(pattern: string, r: Response, r': Response)
    ensures ValidatedPattern(ValidatedPattern(pattern, r), r) == ValidatedPattern(pattern, r)
    ensures ValidatedPattern(pattern, r) == "" ==> ValidatedPattern(ValidatedPattern(pattern, r), r') == ""
  {
  }

  /** get_state's answer for a ledPower exchange with outcome `r`. */
  function PowerState(r: Response): (state: string)
    ensures state == "on" || state == "off" || state == "unknown"
    ensures state == "on" <==> r.Parsed? && r.value.JObj? && Truthy(DictGet(r.value.members, "ledPower"))
    ensures state == "unknown" <==> !(r.Parsed? && r.value.JObj?)
  {
    match r
    case Parsed(j) =>
      (match LedPower(j)
       case Some(true) => "on"
       case Some(false) => "off"
       case None => "unknown")
    case _ => "unknown"
  }

  /** A reply without a `ledPower` member reads as "off", not "unknown". */
  lemma MissingLedPowerIsOff(ms: seq<(string, Json)>)
    requires forall i :: 0 <= i < |ms| ==> ms[i].0 != "ledPower"
    ensures PowerState(Parsed(JObj(ms))) == "off"
  {
    MissingNameIsFalsy(ms, "ledPower");
  }

  /** Everything one on() or off() call does: the zones and pattern it
      leaves, the frames it tries to send, the script it leaves and what it returns. */
  datatype Run = Run(zones: string, pattern: string, attempts: seq<Message>, rest: seq<Response>, result: Call<bool>)

  /** The reference definition of on() (`on` true) and off() (`on` false):
      resolve the zones, then validate the pattern, then send toCtlrSet. */
  function PowerRun(ip: string, pattern: string, zones: string, on: bool, script: seq<Response>): (run: Run)
    // one scripted outcome is used per frame attempted
    ensures 1 <= |run.attempts| <= 3 && run.rest == Drop(script, |run.attempts|)
    // an exception escapes exactly when unconfigured zones cannot be resolved
    ensures run.result.Raised? <==> zones == "" && ZonesReply(At(script, 0)).None?
    ensures run.result.Raised? ==>
              run.zones == "" && run.pattern == pattern && run.attempts == [Message(ip, QueryZones)]
    // configured zones are never re-resolved; a cleared pattern stays cleared
    ensures zones != "" ==> run.zones == zones
    ensures run.pattern == pattern || run.pattern == ""
    // the resolver runs, then the validator, then the command goes out
    ensures run.result.Returned? ==>
              run.attempts == (if zones == "" then [Message(ip, QueryZones)] else [])
                          + (if pattern == "" then [] else [Message(ip, QueryPatterns)])
                          + [Message(ip, SetPower(run.pattern, on, run.zones))]
    ensures run.result.Returned? && zones == "" ==> run.zones == Join(ZonesReply(At(script, 0)).value)
    ensures run.result.Returned? && pattern != "" ==>
              run.pattern == ValidatedPattern(pattern, At(script, if zones == "" then 1 else 0))
    // true exactly when the toCtlrSet exchange got a reply
    ensures run.result.Returned? ==> (run.result.value <==> !At(script, |run.attempts| - 1).NoReply?)
  {
    if zones == "" && ZonesReply(Next(script)).None? then
      Run("", pattern, [Message(ip, QueryZones)], Rest(script), Raised)
    else
      var asksZones := zones == "";
      var z := if asksZones then Join(ZonesReply(Next(script)).value) else zones;
      var script1 := if asksZones then Rest(script) else script;
      var asksPatterns := pattern != "";
      var p := if asksPatterns then ValidatedPattern(pattern, Next(script1)) else "";
      var script2 := if asksPatterns then Rest(script1) else script1;
      var attempts := (if asksZones then [Message(ip, QueryZones)] else [])
                  + (if asksPatterns then [Message(ip, QueryPatterns)] else [])
                  + [Message(ip, SetPower(p, on, z))];
      var n1 := if asksZones then 1 else 0;
      var n2 := n1 + if asksPatterns then 1 else 0;
      NextOfDrop(script, 0);
      NextOfDrop(script, n1);
      NextOfDrop(script, n2);
      assert script1 == Drop(script, n1) && script2 == Drop(script, n2) && |attempts| == n2 + 1;
      Run(z, p, attempts, Rest(script2), Returned(!Next(script2).NoReply?))
  }

  /** A zones reply with an empty zone map leaves the zones unconfigured, so
      the next call asks the controller for them again. */
  lemma EmptyZoneMapAsksAgain(ip: string, pattern: string, on: bool, on': bool, script: seq<Response>)
    requires ZonesReply(At(script, 0)) == Some([])
    ensures var run := PowerRun(ip, pattern, "", on, script);
            run.zones == "" && PowerRun(ip, run.pattern, run.zones, on', run.rest).attempts[0] == Message(ip, QueryZones)
  {
  }

  /** The toCtlrSet frame of a call that returns reads back as the state
      asked for, with the zones and pattern left by the resolver and the
      validator (for a configured pattern without a double quote). */
  lemma SentCommandCarriesState(ip: string, pattern: string, zones: string, on: bool, script: seq<Response>)
    requires '"' !in pattern
    ensures var run := PowerRun(ip, pattern, zones, on, script);
            run.result.Returned? ==>
              DecodeSetPower(run.attempts[|run.attempts| - 1].text) == Some(PowerCommand(run.pattern, on, run.zones))
  {
    var run := PowerRun(ip, pattern, zones, on, script);
    if run.result.Returned? {
      SetPowerRoundTrip(run.pattern, on, run.zones);
    }
  }

  /** Configured zones Front and Back, no pattern, a controller that answers:
      on() sends just the toCtlrSet frame for state 1, no pattern and the
      zones `Front","Back`, and returns true. */
  lemma ScenarioOnWithConfiguredZones(ip: string, ack: Response)
    requires !ack.NoReply?
    ensures var run := PowerRun(ip, "", Join(["Front", "Back"]), true, [ack]);
            run.result == Returned(true) &&
            run.attempts == [Message(ip, SetPower("", true, "Front\",\"Back"))]
  {
    assert Join(["Front", "Back"]) == "Front\",\"Back";
  }

  /** A zones reply naming two different zones, each with an empty record. */
  function TwoZoneReply(a: string, b: string): Response {
    Parsed(JObj([("zones", JObj([(a, JObj([])), (b, JObj([]))]))]))
  }

  lemma TwoZoneNames(a: string, b: string)
    requires a != b
    ensures ZonesReply(TwoZoneReply(a, b)) == Some([a, b])
  {
    var zoneMap := [(a, JObj([])), (b, JObj([]))];
    assert Names(zoneMap) == [a, b];
    KeysOfDistinctNames(zoneMap);
  }

  /** Unconfigured zones and the reply {"zones":{"All":{},"Porch":{}}}: the
      zones become All and Porch, in that order. */
  lemma ScenarioResolveZones(ip: string, on: bool, rest: seq<Response>)
    ensures ZonesReply(TwoZoneReply("All", "Porch")) == Some(["All", "Porch"])
    ensures PowerRun(ip, "", "", on, [TwoZoneReply("All", "Porch")] + rest).zones == Join(["All", "Porch"])
  {
    TwoZoneNames("All", "Porch");
  }

  /** A pattern list holding only Holidays/Valentines Day. */
  function ValentinesList(): Json {
    JArr([JObj([("folders", JStr("Holidays")), ("name", JStr("Valentines Day"))])])
  }

  lemma ValentinesFields(ms: seq<(string, Json)>)
    requires ms == [("folders", JStr("Holidays")), ("name", JStr("Valentines Day"))]
    ensures Get(ms, "name") == Some(JStr("Valentines Day")) && Get(ms, "folders") == Some(JStr("Holidays"))
  {
    assert ms[1].0 != "folders";
    assert ms[..1] == [("folders", JStr("Holidays"))];
  }

  lemma ValentinesEntry()
    ensures EntryPath(ValentinesList().elems[0]) == Path("Holidays/Valentines Day")
  {
    var e := ValentinesList().elems[0];
    ValentinesFields(e.members);
    var name, folders := DictGet(e.members, "name"), DictGet(e.members, "folders");
    assert name == JStr("Valentines Day") && folders == JStr("Holidays");
    assert Truthy(name);
    ValentinesSpelling();
  }

  lemma ValentinesSpelling()
    ensures "Holidays" + "/" + "Valentines Day" == "Holidays/Valentines Day"
  {
  }

  lemma CollectOne(path: string)
    ensures Collect([Path(path)]) == Some([path])
  {
    assert [Path(path)][1..] == [];
    assert [path] + [] == [path];
  }

  lemma ValentinesPaths()
    ensures PatternPaths(ValentinesList()) == Some(["Holidays/Valentines Day"])
  {
    ValentinesEntry();
    var es := ValentinesList().elems;
    assert Entries(es) == [Path("Holidays/Valentines Day")];
    CollectOne("Holidays/Valentines Day");
  }

  lemma HalloweenIsNotValentines()
    ensures "Holidays/Halloween" != "Holidays/Valentines Day"
  {
    assert "Holidays/Halloween"[9] != "Holidays/Valentines Day"[9];
  }

  lemma HalloweenNotListed(reply: seq<(string, Json)>)
    requires reply == [("patternFileList", ValentinesList())]
    ensures !Listed("Holidays/Halloween", JObj(reply))
  {
    ValentinesPaths();
    assert DictGet(reply, "patternFileList") == ValentinesList();
    HalloweenIsNotValentines();
  }

  /** The pattern Holidays/Halloween against a list that only holds
      Holidays/Valentines Day: the pattern is cleared and the command runs
      the empty pattern. */
  lemma ScenarioUnknownPattern(ip: string, zones: string, ack: Response)
    requires zones != ""
    ensures var run := PowerRun(ip, "Holidays/Halloween", zones, true,
                                [Parsed(JObj([("patternFileList", ValentinesList())])), ack]);
            run.pattern == "" && run.attempts[|run.attempts| - 1] == Message(ip, SetPower("", true, zones))
  {
    var reply := [("patternFileList", ValentinesList())];
    HalloweenNotListed(reply);
    assert ValidatedPattern("Holidays/Halloween", Parsed(JObj(reply))) == "";
  }

  /** The controller refuses the toCtlrSet connection after the resolver and
      the validator have had their answers: on() returns false, and the zones
      and pattern are those the two steps left. */
  lemma ScenarioSendFails(ip: string, pattern: string, zones: string, on: bool, script: seq<Response>)
    requires zones == "" ==> ZonesReply(At(script, 0)).Some?
    requires At(script, (if zones == "" then 1 else 0) + (if pattern == "" then 0 else 1)) == NoReply
    ensures var run := PowerRun(ip, pattern, zones, on, script);
            run.result == Returned(false) &&
            run.zones == (if zones == "" then Join(ZonesReply(At(script, 0)).value) else zones) &&
            run.pattern == (if pattern == "" then "" else ValidatedPattern(pattern, At(script, if zones == "" then 1 else 0)))
  {
  }

  lemma AppendAssociative<T>(a: seq<T>, b: seq<T>, c: seq<T>, d: seq<T>)
    ensures a + b + c + d == a + (b + c + d)
  {
  }

  /** One JellyFish device. `controllerIp` is never reassigned; `zones` holds
      the zone names joined with `","` ("" is unconfigured) and `pattern` is
      a `folder/name` path ("" runs the controller's current pattern). */
  class JellyFishPlugin {
    const controllerIp: string
    var pattern: string
    var zones: string

    constructor (nameonly controllerIp: string := DefaultControllerIp,
                 nameonly pattern: string := "",
                 nameonly zones: seq<string> := [])
      ensures this.controllerIp == controllerIp && this.pattern == pattern && this.zones == Join(zones)
    {
      this.controllerIp := controllerIp;
      this.pattern := pattern;
      this.zones := Join(zones);
    }

    /** configure_zones: while the zones are unconfigured, fetch every zone
        name from the controller and keep them. `raised` is true when the
        method lets an exception escape. The pattern is not touched. */
    method ConfigureZones(t: Controller) returns (raised: bool)
      modifies this`zones, t
      ensures old(zones) != "" ==>
                !raised && zones == old(zones) && t.attempts == old(t.attempts) && t.script == old(t.script)
      ensures old(zones) == "" ==>
                t.attempts == old(t.attempts) + [Message(controllerIp, QueryZones)] && t.script == Rest(old(t.script)) &&
                match ZonesReply(Next(old(t.script)))
                case Some(names) => !raised && zones == Join(names)
                case None => raised && zones == ""
    {
      if zones != "" {
        return false;
      }
      var reply := t.Exchange(controllerIp, QueryZones);
      var names := ZonesReply(reply);
      if names.None? {
        return true;
      }
      zones := Join(names.value);
      raised := false;
    }

    /** validate_pattern: keep a non-empty pattern only if the controller
        lists it, otherwise clear it for good. It never raises and does not
        touch the zones. */
    method ValidatePattern(t: Controller)
      modifies this`pattern, t
      ensures old(pattern) == "" ==> pattern == "" && t.attempts == old(t.attempts) && t.script == old(t.script)
      ensures old(pattern) != "" ==>
                t.attempts == old(t.attempts) + [Message(controllerIp, QueryPatterns)] && t.script == Rest(old(t.script)) &&
                pattern == ValidatedPattern(old(pattern), Next(old(t.script)))
    {
      if pattern == "" {
        return;
      }
      var reply := t.Exchange(controllerIp, QueryPatterns);
      pattern := ValidatedPattern(pattern, reply);
    }

    /** The body shared by on() and off(). */
    method Switch(t: Controller, on: bool) returns (r: Call<bool>)
      modifies this`zones, this`pattern, t
      ensures var run := PowerRun(controllerIp, old(pattern), old(zones), on, old(t.script));
              r == run.result && zones == run.zones && pattern == run.pattern &&
              t.attempts == old(t.attempts) + run.attempts && t.script == run.rest
    {
      ghost var run := PowerRun(controllerIp, pattern, zones, on, t.script);
      ghost var script0, log0 := t.script, t.attempts;
      var raised := ConfigureZones(t);
      if raised {
        return Raised;
      }
      ghost var script1, log1 := t.script, t.attempts;
      assert zones == run.zones;
      assert script1 == if old(zones) == "" then Rest(script0) else script0;
      assert log1 == log0 + if old(zones) == "" then [Message(controllerIp, QueryZones)] else [];
      ValidatePattern(t);
      assert pattern == run.pattern;
      ghost var script2, log2 := t.script, t.attempts;
      assert script2 == if old(pattern) == "" then script1 else Rest(script1);
      assert log2 == log1 + if old(pattern) == "" then [] else [Message(controllerIp, QueryPatterns)];
      var reply := t.Exchange(controllerIp, SetPower(pattern, on, zones));
      // the acknowledgement is not parsed: any reply counts as success
      r := Returned(!reply.NoReply?);
      ghost var asksZones: seq<Message> := if old(zones) == "" then [Message(controllerIp, QueryZones)] else [];
      ghost var asksPattern: seq<Message> := if old(pattern) == "" then [] else [Message(controllerIp, QueryPatterns)];
      assert run.attempts == asksZones + asksPattern + [Message(controllerIp, SetPower(pattern, on, zones))];
      assert log2 == log0 + asksZones + asksPattern;
      ghost var command := [Message(controllerIp, SetPower(pattern, on, zones))];
      assert t.attempts == log2 + command;
      AppendAssociative(log0, asksZones, asksPattern, command);
    }

    /** on(): switch the zones on with state 1. */
    method On(t: Controller) returns (r: Call<bool>)
      modifies this`zones, this`pattern, t
      ensures var run := PowerRun(controllerIp, old(pattern), old(zones), true, old(t.script));
              r == run.result && zones == run.zones && pattern == run.pattern &&
              t.attempts == old(t.attempts) + run.attempts && t.script == run.rest
    {
      r := Switch(t, true);
    }

    /** off(): switch the zones off with state 0. */
    method Off(t: Controller) returns (r: Call<bool>)
      modifies this`zones, this`pattern, t
      ensures var run := PowerRun(controllerIp, old(pattern), old(zones), false, old(t.script));
              r == run.result && zones == run.zones && pattern == run.pattern &&
              t.attempts == old(t.attempts) + run.attempts && t.script == run.rest
    {
      r := Switch(t, false);
    }

    /** get_state: ask the controller for ledPower. Neither the zones nor the
        pattern change. */
    method GetState(t: Controller) returns (state: string)
      modifies t
      ensures t.attempts == old(t.attempts) + [Message(controllerIp, QueryPower)] && t.script == Rest(old(t.script))
      ensures state == PowerState(Next(old(t.script)))
    {
      var reply := t.Exchange(controllerIp, QueryPower);
      state := PowerState(reply);
    }
  }

  /** The controller answers of the usage example below: the zones Front and
      Back, a failed pattern query, two replies that are not JSON, and an
      ledPower reply. */
  function ClientScript(): seq<Response> {
    [TwoZoneReply("Front", "Back"), NoReply, Unparsable, Unparsable, Parsed(JObj([("ledPower", JInt(1))]))]
  }

  lemma ClientRuns()
    ensures var first := PowerRun("192.168.3.1", "Holidays/Valentines Day", "", true, ClientScript());
            first.zones == Join(["Front", "Back"]) && first.pattern == "" && first.result == Returned(true) &&
            first.rest == ClientScript()[3..] && |first.attempts| == 3 &&
            var second := PowerRun("192.168.3.1", "", first.zones, false, first.rest);
            second.result == Returned(true) && second.rest == ClientScript()[4..] && |second.attempts| == 1
  {
    TwoZoneNames("Front", "Back");
    NextOfDrop(ClientScript(), 3);
  }

  lemma ClientPower()
    ensures PowerState(ClientScript()[4]) == "on"
  {
    assert DictGet([("ledPower", JInt(1))], "ledPower") == JInt(1);
  }

  /** A caller's view: the contracts alone say what a device does. */
  method ClientScenario() {
    var device := new JellyFishPlugin(controllerIp := "192.168.3.1", pattern := "Holidays/Valentines Day");
    var t := new Controller(ClientScript());
    ClientRuns();
    var r := device.On(t);
    // zones resolved; the pattern query failed, so the pattern was cleared;
    // the acknowledgement is not JSON, which does not matter
    assert device.zones == Join(["Front", "Back"]) && device.pattern == "" && r == Returned(true);
    var r' := device.Off(t);
    // the second call asks neither for zones nor for patterns
    assert |t.attempts| == 4 && r' == Returned(true);
    ClientPower();
    var state := device.GetState(t);
    assert state == "on";
  }
}
