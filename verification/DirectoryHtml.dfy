/**
 The verifier's reading of a published HTML page. It accepts exactly the pages
 the publisher renders for admissible snapshots, except those that show the word
 its safety check refuses.
 */
module DirectoryHtml {
  import opened Options
  import opened MarkupText
  import opened HtmlEscaping
  import opened DirectoryPage
  import Decimals

  const TOKEN: string := "javascript:"

  // ---- the reader ---------------------------------------------------------------------------

  predicate IsUnsafe(lowered: string) {
    Contains(lowered, "<script") || Contains(lowered, "<form") || Contains(lowered, TOKEN)
  }

  function HtmlValue(text: string, caption: string): Option<string> {
    FindBetween(text, Term(caption) + "", Close("dd"))
  }

  function HtmlCode(text: string, caption: string): Option<string> {
    FindBetween(text, Term(caption) + Open("code"), Close("code") + Close("dd"))
  }

  function HtmlCell(fragment: string, code: bool): Option<string> {
    if code then
      if |fragment| < 13 || fragment[..6] != "<code>" || fragment[|fragment| - 7..] != "</code>" ||
         !NoAngle(fragment[6..|fragment| - 7])
      then None
      else Some(Unescape(fragment[6..|fragment| - 7]))
    else if !NoAngle(fragment) then None
    else Some(Unescape(fragment))
  }

  /** A canonical decimal in range. */
  function ReadInteger(text: string, minimum: nat, maximum: nat): Option<nat> {
    if text == "" || !Decimals.AllDigits(text) || (|text| > 1 && text[0] == '0') then None
    else
      var n := Decimals.Value(text);
      if n < minimum || n > maximum then None else Some(n)
  }

  function ReadGeneration(text: string): Option<nat> {
    if !Decimals.IsCanonical(text) || Decimals.Value(text) > Decimals.MAX_UINT64 then None
    else Some(Decimals.Value(text))
  }

  function LastIndexOf(text: string, c: char): (index: Option<nat>)
    ensures index.Some? ==> index.value < |text| && text[index.value] == c
  {
    if text == "" then None
    else if text[|text| - 1] == c then Some(|text| - 1)
    else LastIndexOf(text[..|text| - 1], c)
  }

  function HtmlEndpoint(fragment: string): Option<Option<Endpoint>> {
    if fragment == "not published" then Some(None)
    else
      var value := HtmlCell(fragment, true);
      if value.None? then None
      else
        var colon := LastIndexOf(value.value, ':');
        if colon.None? then None
        else
          var port := ReadInteger(value.value[colon.value + 1..], 1, 65535);
          if port.None? then None else Some(Some(Endpoint(value.value[..colon.value], port.value)))
  }

  function ReadPolicy(cell: Option<string>): Option<bool> {
    if cell == Some("protected") then Some(true) else if cell == Some("open") then Some(false) else None
  }

  /** Four decimal labels, the one address spelling that the reader's own test can meet in a host. */
  predicate IsAddress(host: string) {
    |Labels(host)| == 4 && forall k :: 0 <= k < 4 ==> Labels(host)[k] != "" && Decimals.AllDigits(Labels(host)[k])
  }

  function Checked(s: Server, check: string -> bool): Option<Server> {
    if !IsServer(s) || (s.endpoint.Some? && IsAddress(s.endpoint.value.hostname)) || !HostPasses(s, check) then None
    else Some(s)
  }

  function ClassicServer(cells: seq<string>, check: string -> bool): Option<Server> {
    if |cells| != 9 then None
    else
      var serverId, name, version := HtmlCell(cells[0], true), HtmlCell(cells[1], false), HtmlCell(cells[2], false);
      var players, textComment := HtmlCell(cells[3], false), HtmlCell(cells[4], false);
      var certificate, policy := HtmlCell(cells[5], true), ReadPolicy(HtmlCell(cells[7], false));
      var endpoint := HtmlEndpoint(cells[8]);
      if HtmlCell(cells[6], false) != Some("listed") || serverId.None? || name.None? || version.None? ||
         players.None? || textComment.None? || certificate.None? || policy.None? || endpoint.None?
      then None
      else
        var playersCount := ReadInteger(players.value, 0, 4294967295);
        if playersCount.None? then None
        else
          Checked(Classic(serverId.value, name.value, playersCount.value, version.value, textComment.value,
                          certificate.value, policy.value, endpoint.value), check)
  }

  function ReadProtocol(cell: string): Option<nat> {
    if |cell| < 2 || cell[..2] != "1." then None else ReadInteger(cell[2..], 0, 65535)
  }

  function ReadPlayers(cell: string): Option<(nat, nat)> {
    var slash := IndexOf(cell, "/");
    if slash.None? then None
    else
      var online := ReadInteger(cell[..slash.value], 0, 100000);
      var capacity := ReadInteger(cell[slash.value + 1..], 1, 100000);
      if online.None? || capacity.None? then None else Some((online.value, capacity.value))
  }

  function GameServer(cells: seq<string>, check: string -> bool): Option<Server> {
    if |cells| != 12 then None
    else
      var serverId, certificate := HtmlCell(cells[0], true), HtmlCell(cells[1], true);
      var name, description := HtmlCell(cells[2], false), HtmlCell(cells[3], false);
      var region, protocol := HtmlCell(cells[4], false), HtmlCell(cells[5], false);
      var contentId, contentRevision := HtmlCell(cells[6], false), HtmlCell(cells[7], true);
      var players, status := HtmlCell(cells[8], false), HtmlCell(cells[9], false);
      var policy, endpoint := ReadPolicy(HtmlCell(cells[10], false)), HtmlEndpoint(cells[11]);
      if serverId.None? || certificate.None? || name.None? || description.None? || region.None? || protocol.None? ||
         contentId.None? || contentRevision.None? || players.None? || status.None? || policy.None? || endpoint.None?
      then None
      else
        var minor, counts := ReadProtocol(protocol.value), ReadPlayers(players.value);
        if minor.None? || counts.None? then None
        else
          Checked(Game(serverId.value, certificate.value, name.value, description.value,
                       if region.value == "not published" then None else region, minor.value, contentId.value,
                       contentRevision.value, counts.value.0, counts.value.1, status.value, policy.value,
                       endpoint.value), check)
  }

  function ReadServer(profile: Profile, cells: seq<string>, check: string -> bool): Option<Server> {
    if profile.ClassicV3? then ClassicServer(cells, check) else GameServer(cells, check)
  }

  function ReadServers(profile: Profile, rows: seq<seq<string>>, check: string -> bool)
    : (servers: Option<seq<Server>>)
    ensures servers.Some? ==>
              && |servers.value| == |rows| && HostsPass(servers.value, check)
              && forall k :: 0 <= k < |rows| ==> OfProfile(profile, servers.value[k]) && IsServer(servers.value[k])
  {
    if rows == [] then Some([])
    else
      var first, rest := ReadServer(profile, rows[0], check), ReadServers(profile, rows[1..], check);
      if first.None? || rest.None? then None else Some([first.value] + rest.value)
  }

  /** The rows that hold a data cell, each with the text of its cells. */
  function CellsOfRows(rows: seq<string>): seq<seq<string>> {
    if rows == [] then []
    else if Contains(rows[0], Open("td")) then [FindAll(rows[0], "td")] + CellsOfRows(rows[1..])
    else CellsOfRows(rows[1..])
  }

  function ReadSnapshot(profile: Profile, text: string, check: string -> bool): Option<Snapshot> {
    var rows := CellsOfRows(FindAll(text, "tr"));
    var servers := ReadServers(profile, rows, check);
    var generation, at, until :=
      HtmlValue(text, "Generation"), HtmlValue(text, "Generated at"), HtmlValue(text, "Expires at");
    if |rows| > MAX_SERVERS || servers.None? || !DistinctIds(servers.value) || generation.None? || at.None? ||
       until.None?
    then None
    else
      var g, a, u := ReadGeneration(generation.value), ReadInteger(at.value, 0, MAX_TIMESTAMP),
                     ReadInteger(until.value, 0, MAX_TIMESTAMP);
      if g.None? || a.None? || u.None? then None
      else Some(Snapshot(profile, g.value, a.value, u.value, servers.value))
  }

  /** The reading of one page, with the reader's check of internationalised host labels. */
  function ParseHtml(profile: Profile, text: string, check: string -> bool): Option<Snapshot> {
    var lowered := LowerText(text);
    if !StartsWith(lowered, "<!doctype html>\n") || IsUnsafe(lowered) then None
    else if HtmlCode(text, "Schema") != Some(Schema(profile)) then None
    else
      var s := ReadSnapshot(profile, text, check);
      if s.None? || text != CanonicalHtml(s.value) then None else s
  }
}
