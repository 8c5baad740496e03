/** The two writes of `terraform.tfvars` during provisioning taken together:
    the file `createTerraformVars` renders holds the empty image line exactly
    once, in its app block, so the later `updateContainerImage` fills that
    line and changes nothing else. No occurrence of the empty image line can
    cross a line break, so the argument goes line by line: every other line
    is either free of quotes, or opens with text that has no `c`, or is one
    of the Azure lines whose lead cannot start the empty image line; and the
    values written into them are assumed not to hold `container_image = "`. */
module TfvarsImage {
  import opened Wrappers
  import opened Text
  import opened ConfigTree
  import opened TerraformVars
  import VarsLayout
  import ImagePatch

  /** The filled image line up to the image name. */
  const ImageLead: string := "container_image = \""

  /** A value that cannot complete the empty image line from inside. */
  ghost predicate LeadFree(v: string)
  {
    !Contains(v, ImageLead)
  }

  /** Text that ends a line (or is empty) and holds no empty image line. */
  ghost predicate Clear(s: string)
  {
    (s == [] || s[|s| - 1] == '\n') && !Contains(s, Placeholder)
  }

  lemma PlaceholderFacts()
    ensures Placeholder == ImageLead + "\""
    ensures |Placeholder| == 20 && Placeholder[0] == 'c' && Placeholder[1] == 'o'
    ensures '\n' !in Placeholder && '"' in Placeholder && 'c' in ImageLead
    ensures forall k :: 0 <= k < 18 ==> Placeholder[k] != '"'
    ensures forall image :: ImageLine(image) == ImageLead + image + "\""
  {
    assert Placeholder[19] == '"';
  }

  // ---------------------------------------------------------------------
  // One line

  /** A value free of the lead, closed by a quote or not, holds no empty
      image line: the line's only quote after the value is the last one. */
  lemma ValueClear(v: string, close: string)
    requires LeadFree(v)
    requires close == "\"" || close == ""
    ensures !Contains(v + close, Placeholder)
  {
    PlaceholderFacts();
    var t := v + close;
    if Contains(t, Placeholder) {
      var j :| 0 <= j <= |t| - 20 && OccursAt(t, Placeholder, j);
      assert t[j..j + 19] == t[j..j + 20][..19] == Placeholder[..19] == ImageLead;
      assert v[j..j + 19] == t[j..j + 19];
      ContainsWhenOccurs(v, ImageLead, j);
    }
  }

  /** A line whose lead has no `c` (every line but the Azure ones). */
  lemma PlainLineClear(lead: string, v: string, close: string)
    requires 'c' !in lead && LeadFree(v)
    requires close == "\"" || close == ""
    ensures !Contains(lead + v + close, Placeholder)
  {
    PlaceholderFacts();
    var t := lead + v + close;
    ValueClear(v, close);
    assert t[|lead|..] == v + close;
    forall j | 0 <= j <= |t| - 20
      ensures !OccursAt(t, Placeholder, j)
    {
      if j < |lead| {
        assert t[j..j + 20][0] == lead[j] != Placeholder[0];
      } else {
        OccursInSuffix(t, |lead|, Placeholder, j - |lead|);
      }
    }
  }

  /** A line of the Azure sections: a 19-character lead ending in its
      opening quote that does not start with `co`. An occurrence starting
      inside the lead would put one of the empty image line's quotes, its
      last two characters, on that opening quote; only one starting at the
      line's front does, and the lead's first two characters rule it out. */
  lemma AzureLineClear(lead: string, v: string)
    requires |lead| == 19 && lead[18] == '"' && (lead[0] != 'c' || lead[1] != 'o')
    requires LeadFree(v)
    ensures !Contains(lead + v + "\"", Placeholder)
  {
    PlaceholderFacts();
    var t := lead + v + "\"";
    ValueClear(v, "\"");
    assert t[19..] == v + "\"";
    forall j | 0 <= j <= |t| - 20
      ensures !OccursAt(t, Placeholder, j)
    {
      if j == 0 {
        assert t[..20][0] == lead[0] && t[..20][1] == lead[1];
      } else if j < 19 {
        assert t[j..j + 20][18 - j] == lead[18] != Placeholder[18 - j];
      } else {
        OccursInSuffix(t, 19, Placeholder, j - 19);
      }
    }
  }

  // ---------------------------------------------------------------------
  // Lines into blocks

  lemma QuoteFreeClear(s: string)
    requires forall k :: 0 <= k < |s| ==> s[k] != '"'
    requires s == [] || s[|s| - 1] == '\n'
    ensures Clear(s)
  {
    PlaceholderFacts();
    MissingCharNotContained(s, Placeholder, '"');
  }

  /** Clear text stays clear when clear text follows it. */
  lemma ClearJoin(a: string, b: string)
    requires Clear(a) && Clear(b)
    ensures Clear(a + b)
  {
    PlaceholderFacts();
    ContainsSplitAfterNewline(a, b, Placeholder);
    if b == [] {
      assert a + b == a;
    } else {
      assert (a + b)[|a + b| - 1] == b[|b| - 1];
    }
  }

  /** A clear line, closed by a quote and a newline, after clear text. */
  lemma QuotedStep(x: string, lead: string, v: string)
    requires Clear(x) && !Contains(lead + v + "\"", Placeholder)
    ensures Clear(x + lead + v + "\"\n")
  {
    PlaceholderFacts();
    var line := lead + v + "\"";
    ContainsIgnoresNewline(line, Placeholder);
    assert x + lead + v + "\"\n" == x + (line + "\n");
    ClearJoin(x, line + "\n");
  }

  /** The same, for the last line of a section, followed by a blank line. */
  lemma QuotedGapStep(x: string, lead: string, v: string)
    requires Clear(x) && !Contains(lead + v + "\"", Placeholder)
    ensures Clear(x + lead + v + "\"\n\n")
  {
    QuotedStep(x, lead, v);
    QuoteFreeClear("\n");
    assert x + lead + v + "\"\n\n" == (x + lead + v + "\"\n") + "\n";
    ClearJoin(x + lead + v + "\"\n", "\n");
  }

  /** What the block's text must not hold for the file to have one empty
      image line: the values written between quotes are free of the lead,
      and the connection lines are named without a `c`. The app block is
      the one that holds the empty image line. */
  ghost predicate CleanBlock(b: Block)
  {
    match b
    case AuthBlock(clientId, clientSecret, tenantId, subscriptionId) =>
      LeadFree(clientId) && LeadFree(clientSecret) && LeadFree(tenantId) && LeadFree(subscriptionId)
    case LocationBlock(location, resourceGroup) => LeadFree(location) && LeadFree(resourceGroup)
    case ServiceBlock(_, _) => true
    case AppBlock(_, _) => false
    case ConnectionBlock(lines) => PlainNames(lines) && forall a | a in lines :: LeadFree(a.value)
  }

  ghost predicate PlainNames(lines: seq<Assignment>)
  {
    forall a | a in lines :: 'c' !in a.name
  }

  lemma AuthClear(clientId: string, clientSecret: string, tenantId: string, subscriptionId: string)
    requires LeadFree(clientId) && LeadFree(clientSecret) && LeadFree(tenantId) && LeadFree(subscriptionId)
    ensures Clear(BlockText(AuthBlock(clientId, clientSecret, tenantId, subscriptionId)))
  {
    var x0 := "# Azure Authentication\n";
    QuoteFreeClear(x0);
    AzureLineClear("client_id       = \"", clientId);
    QuotedStep(x0, "client_id       = \"", clientId);
    var x1 := x0 + "client_id       = \"" + clientId + "\"\n";
    AzureLineClear("client_secret   = \"", clientSecret);
    QuotedStep(x1, "client_secret   = \"", clientSecret);
    var x2 := x1 + "client_secret   = \"" + clientSecret + "\"\n";
    AzureLineClear("tenant_id       = \"", tenantId);
    QuotedStep(x2, "tenant_id       = \"", tenantId);
    var x3 := x2 + "tenant_id       = \"" + tenantId + "\"\n";
    AzureLineClear("subscription_id = \"", subscriptionId);
    QuotedGapStep(x3, "subscription_id = \"", subscriptionId);
  }

  lemma LocationClear(location: string, resourceGroup: string)
    requires LeadFree(location) && LeadFree(resourceGroup)
    ensures Clear(BlockText(LocationBlock(location, resourceGroup)))
  {
    var x0 := "# Azure Configuration\n";
    QuoteFreeClear(x0);
    AzureLineClear("location        = \"", location);
    QuotedStep(x0, "location        = \"", location);
    var x1 := x0 + "location        = \"" + location + "\"\n";
    AzureLineClear("resource_group  = \"", resourceGroup);
    QuotedGapStep(x1, "resource_group  = \"", resourceGroup);
  }

  /** A timestamp is digits only, so it cannot hold the lead. */
  lemma StampLeadFree(stamp: nat)
    ensures LeadFree(NatToString(stamp))
  {
    PlaceholderFacts();
    var n := NatToString(stamp);
    assert 'c' !in n by {
      forall k | 0 <= k < |n| ensures n[k] != 'c' { }
    }
    MissingCharNotContained(n, ImageLead, 'c');
  }

  lemma TitleQuoteFree(d: Dependency)
    ensures forall k :: 0 <= k < |Title(d)| ==> Title(d)[k] != '"'
  {
  }

  lemma PrefixPlain(d: Dependency)
    ensures 'c' !in ResourcePrefix(d)
  {
  }

  /** The service line's lead, taken as one piece. */
  lemma ServiceLineShape(x: string, p: string, v: string)
    ensures x + p + "_name = \"" + p + "-" + v + "\"\n\n" == x + (p + "_name = \"" + p + "-") + v + "\"\n\n"
  {
  }

  lemma ServiceClear(d: Dependency, stamp: nat)
    ensures Clear(BlockText(ServiceBlock(d, stamp)))
  {
    var p := ResourcePrefix(d);
    var x0 := "# " + Title(d) + " Configuration\n";
    TitleQuoteFree(d);
    QuoteFreeClear(x0);
    PrefixPlain(d);
    var lead := p + "_name = \"" + p + "-";
    var n := NatToString(stamp);
    StampLeadFree(stamp);
    PlainLineClear(lead, n, "\"");
    QuotedGapStep(x0, lead, n);
    ServiceLineShape(x0, p, n);
  }

  lemma AppHeadClear(stamp: nat)
    ensures Clear(AppHead(stamp))
  {
    var x0 := "# App Service Configuration\n";
    QuoteFreeClear(x0);
    StampLeadFree(stamp);
    PlainLineClear("app_name = \"app-", NatToString(stamp), "\"");
    QuotedStep(x0, "app_name = \"app-", NatToString(stamp));
  }

  lemma AssignmentClear(a: Assignment)
    requires 'c' !in a.name && LeadFree(a.value)
    ensures Clear(RenderAssignment(a))
  {
    PlaceholderFacts();
    var lead := a.name + " = " + (if a.quoted then "\"" else "");
    var close := if a.quoted then "\"" else "";
    PlainLineClear(lead, a.value, close);
    ContainsIgnoresNewline(lead + a.value + close, Placeholder);
    assert RenderAssignment(a) == lead + a.value + close + "\n";
  }

  lemma {:induction false} AssignmentsClear(lines: seq<Assignment>)
    requires PlainNames(lines) && forall a | a in lines :: LeadFree(a.value)
    ensures Clear(RenderAssignments(lines))
  {
    if lines == [] {
      QuoteFreeClear("");
    } else {
      var last := lines[|lines| - 1];
      assert last in lines;
      AssignmentsClear(lines[..|lines| - 1]);
      AssignmentClear(last);
      ClearJoin(RenderAssignments(lines[..|lines| - 1]), RenderAssignment(last));
    }
  }

  lemma ConnectionHeadQuoteFree()
    ensures '"' !in "\n# Database and Service Connection Information\n"
  {
    ConnectionHeadPieces();
    ConnectionPiecesQuoteFree();
  }

  lemma ConnectionHeadPieces()
    ensures "\n# Database and Service Connection Information\n" == "\n# Database and " + "Service Connection " + "Information\n"
  {
  }

  lemma ConnectionPiecesQuoteFree()
    ensures '"' !in "\n# Database and " && '"' !in "Service Connection " && '"' !in "Information\n"
  {
  }

  lemma ConnectionHeadClear()
    ensures Clear("\n# Database and Service Connection Information\n")
  {
    ConnectionHeadQuoteFree();
    PlaceholderFacts();
    MissingCharNotContained("\n# Database and Service Connection Information\n", Placeholder, '"');
  }

  lemma ConnectionClear(lines: seq<Assignment>)
    requires PlainNames(lines) && forall a | a in lines :: LeadFree(a.value)
    ensures Clear(BlockText(ConnectionBlock(lines)))
  {
    ConnectionHeadClear();
    AssignmentsClear(lines);
    ClearJoin("\n# Database and Service Connection Information\n", RenderAssignments(lines));
  }

  lemma BlockClear(b: Block)
    requires CleanBlock(b)
    ensures Clear(BlockText(b))
  {
    match b
    case AuthBlock(clientId, clientSecret, tenantId, subscriptionId) =>
      AuthClear(clientId, clientSecret, tenantId, subscriptionId);
    case LocationBlock(location, resourceGroup) => LocationClear(location, resourceGroup);
    case ServiceBlock(d, stamp) => ServiceClear(d, stamp);
    case ConnectionBlock(lines) => ConnectionClear(lines);
  }

  lemma {:induction false} RenderAllClear(bs: seq<Block>)
    requires forall b | b in bs :: CleanBlock(b)
    ensures Clear(RenderAll(bs))
  {
    if bs == [] {
      QuoteFreeClear("");
    } else {
      var last := bs[|bs| - 1];
      assert last in bs;
      RenderAllClear(bs[..|bs| - 1]);
      BlockClear(last);
      ClearJoin(RenderAll(bs[..|bs| - 1]), BlockText(last));
    }
  }

  // ---------------------------------------------------------------------
  // The one empty image line

  /** An only occurrence stays the only one with clear text before it. */
  lemma OnlyAfterClear(a: string, b: string, i: int)
    requires Clear(a) && OnlyOccurrence(b, Placeholder, i)
    ensures OnlyOccurrence(a + b, Placeholder, |a| + i)
  {
    PlaceholderFacts();
    OccursInRight(a, b, Placeholder, i);
    forall j | OccursAt(a + b, Placeholder, j)
      ensures j == |a| + i
    {
      OccurrenceSplits(a, b, Placeholder, j);
      if OccursAt(a, Placeholder, j) {
        ContainsWhenOccurs(a, Placeholder, j);
      }
    }
  }

  /** An only occurrence in text ending a line stays the only one when text
      without the empty image line follows. */
  lemma OnlyBeforeClear(a: string, b: string, i: int)
    requires a == [] || a[|a| - 1] == '\n'
    requires OnlyOccurrence(a, Placeholder, i) && !Contains(b, Placeholder)
    ensures OnlyOccurrence(a + b, Placeholder, i)
  {
    PlaceholderFacts();
    OccursInLeft(a, b, Placeholder, i);
    forall j | OccursAt(a + b, Placeholder, j)
      ensures j == i
    {
      OccurrenceSplits(a, b, Placeholder, j);
      if OccursAt(b, Placeholder, j - |a|) {
        ContainsWhenOccurs(b, Placeholder, j - |a|);
      }
    }
  }

  /** A clear head followed by the empty image line holds it once, right
      after the head. */
  lemma AppLineOnce(h: string)
    requires Clear(h)
    ensures var app := h + ImageLine("") + "\n";
      app[|app| - 1] == '\n' && OnlyOccurrence(app, Placeholder, |h|)
  {
    PlaceholderFacts();
    var tail := Placeholder + "\n";
    OccursAtFront(Placeholder, "\n");
    assert forall j :: OccursAt(tail, Placeholder, j) ==> j == 0;
    OnlyAfterClear(h, tail, 0);
    assert h + ImageLine("") + "\n" == h + tail;
  }

  /** Clear text, then a line-ending part with its only occurrence at `i`,
      then clear text: the whole has its only occurrence there too. */
  lemma ThreePartsOnce(s: string, r: string, app: string, c: string, i: int)
    requires s == r + app + c
    requires Clear(r) && Clear(c)
    requires app != [] && app[|app| - 1] == '\n' && OnlyOccurrence(app, Placeholder, i)
    ensures OnlyOccurrence(s, Placeholder, |r| + i)
  {
    OnlyAfterClear(r, app, i);
    OnlyBeforeClear(r + app, c, |r| + i);
  }

  /** A file made of clear text, the app section's clear head with the empty
      image line, and clear text holds the empty image line exactly once. */
  lemma FileOnce(file: string, r: string, h: string, c: string)
    requires Clear(r) && Clear(h) && Clear(c)
    requires file == r + (h + ImageLine("") + "\n") + c
    ensures OnlyOccurrence(file, Placeholder, |r| + |h|)
  {
    AppLineOnce(h);
    ThreePartsOnce(file, r, h + ImageLine("") + "\n", c, |h|);
  }

  /** Patching such a file fills in exactly that line. */
  lemma FilePatched(file: string, r: string, h: string, c: string, image: string)
    requires Clear(r) && Clear(h) && Clear(c)
    requires file == r + (h + ImageLine("") + "\n") + c
    ensures ImagePatch.UpdateContainerImage(file, image) == r + (h + ImageLine(image) + "\n") + c
  {
    FileOnce(file, r, h, c);
    SpliceMiddle(file, r, h, c, image);
  }

  /** The splice of the only empty image line, regrouped by parts. */
  lemma SpliceMiddle(file: string, r: string, h: string, c: string, image: string)
    requires file == r + (h + Placeholder + "\n") + c
    requires OnlyOccurrence(file, Placeholder, |r| + |h|)
    ensures ImagePatch.UpdateContainerImage(file, image) == r + (h + ImageLine(image) + "\n") + c
  {
    ImagePatch.PatchSplices(file, image, |r| + |h|);
    Regroup(r, h, Placeholder, ImageLine(image), c);
  }

  /** Cutting out the middle of `r + (h + x + "\n") + c` and putting `y` in
      its place. */
  lemma Regroup(r: string, h: string, x: string, y: string, c: string)
    ensures var s := r + (h + x + "\n") + c;
      && s[..|r| + |h|] == r + h
      && s[|r| + |h| + |x|..] == "\n" + c
      && r + h + y + ("\n" + c) == r + (h + y + "\n") + c
  {
    var s := r + (h + x + "\n") + c;
    assert s[..|r| + |h|] == r + h;
    assert s[|r| + |h| + |x|..] == "\n" + c;
  }

  /** The text of a file laid out as blocks, the app block and the
      connection section. */
  lemma LayoutText(prefix: seq<Block>, stamp: nat, image: string, lines: seq<Assignment>)
    ensures RenderAll(prefix + [AppBlock(stamp, image)] + [ConnectionBlock(lines)])
         == RenderAll(prefix) + (AppHead(stamp) + ImageLine(image) + "\n") + BlockText(ConnectionBlock(lines))
  {
    RenderAllAppend(prefix, AppBlock(stamp, image));
    RenderAllAppend(prefix + [AppBlock(stamp, image)], ConnectionBlock(lines));
  }

  /** The empty image line opens the middle part of such a file. */
  lemma OccursInMiddle(file: string, r: string, h: string, c: string)
    requires file == r + (h + ImageLine("") + "\n") + c
    ensures OccursAt(file, Placeholder, |r| + |h|)
  {
    assert ImageLine("") == Placeholder;
    assert file[|r| + |h|..|r| + |h| + |Placeholder|] == Placeholder;
  }

  /** A file holding the empty image line in its middle part contains it. */
  lemma MiddleContains(file: string, r: string, h: string, c: string)
    requires file == r + (h + ImageLine("") + "\n") + c
    ensures Contains(file, Placeholder)
  {
    OccursInMiddle(file, r, h, c);
    ContainsWhenOccurs(file, Placeholder, |r| + |h|);
  }

  /** The text of blocks laid out as a prefix, the app block and the
      connection section. */
  lemma LayoutSplit(blocks: seq<Block>, prefix: seq<Block>, stamp: nat, image: string, lines: seq<Assignment>)
    requires blocks == prefix + [AppBlock(stamp, image)] + [ConnectionBlock(lines)]
    ensures RenderAll(blocks)
         == RenderAll(prefix) + (AppHead(stamp) + ImageLine(image) + "\n") + BlockText(ConnectionBlock(lines))
  {
    LayoutText(prefix, stamp, image, lines);
  }

  /** A file laid out as blocks, the app block with the empty image and the
      connection section holds the empty image line. */
  lemma LayoutHasPlaceholder(blocks: seq<Block>, prefix: seq<Block>, stamp: nat, lines: seq<Assignment>)
    requires blocks == prefix + [AppBlock(stamp, "")] + [ConnectionBlock(lines)]
    ensures Contains(RenderAll(blocks), Placeholder)
  {
    LayoutSplit(blocks, prefix, stamp, "", lines);
    MiddleContains(RenderAll(blocks), RenderAll(prefix), AppHead(stamp), BlockText(ConnectionBlock(lines)));
  }

  /** The parts around the app line are clear when the blocks before the app
      block are and the connection section's names and values are plain. */
  lemma LayoutClear(prefix: seq<Block>, stamp: nat, lines: seq<Assignment>)
    requires forall b | b in prefix :: CleanBlock(b)
    requires PlainNames(lines) && forall a | a in lines :: LeadFree(a.value)
    ensures Clear(RenderAll(prefix)) && Clear(AppHead(stamp)) && Clear(BlockText(ConnectionBlock(lines)))
  {
    RenderAllClear(prefix);
    AppHeadClear(stamp);
    ConnectionClear(lines);
  }

  /** When the blocks before the app block are clear and the connection
      section's names and values are plain, the empty image line occurs
      exactly once, in the app block. */
  lemma LayoutOnce(blocks: seq<Block>, prefix: seq<Block>, stamp: nat, lines: seq<Assignment>)
    requires blocks == prefix + [AppBlock(stamp, "")] + [ConnectionBlock(lines)]
    requires forall b | b in prefix :: CleanBlock(b)
    requires PlainNames(lines) && forall a | a in lines :: LeadFree(a.value)
    ensures exists i :: OnlyOccurrence(RenderAll(blocks), Placeholder, i)
  {
    LayoutSplit(blocks, prefix, stamp, "", lines);
    LayoutClear(prefix, stamp, lines);
    FileOnce(RenderAll(blocks), RenderAll(prefix), AppHead(stamp), BlockText(ConnectionBlock(lines)));
  }

  /** Under the same conditions patching the file is rendering it with the
      image in the app block. */
  lemma LayoutPatched(blocks: seq<Block>, prefix: seq<Block>, stamp: nat, lines: seq<Assignment>, image: string)
    requires blocks == prefix + [AppBlock(stamp, "")] + [ConnectionBlock(lines)]
    requires forall b | b in prefix :: CleanBlock(b)
    requires PlainNames(lines) && forall a | a in lines :: LeadFree(a.value)
    ensures ImagePatch.UpdateContainerImage(RenderAll(blocks), image)
         == RenderAll(blocks[|blocks| - 2 := AppBlock(stamp, image)])
  {
    assert blocks[|blocks| - 2 := AppBlock(stamp, image)] == prefix + [AppBlock(stamp, image)] + [ConnectionBlock(lines)];
    LayoutSplit(blocks, prefix, stamp, "", lines);
    LayoutText(prefix, stamp, image, lines);
    LayoutClear(prefix, stamp, lines);
    FilePatched(RenderAll(blocks), RenderAll(prefix), AppHead(stamp), BlockText(ConnectionBlock(lines)), image);
  }

  /** Under the same conditions, patching the file with an image name free
      of quotes and `=` leaves no empty image line. */
  lemma LayoutCleared(blocks: seq<Block>, prefix: seq<Block>, stamp: nat, lines: seq<Assignment>, image: string)
    requires blocks == prefix + [AppBlock(stamp, "")] + [ConnectionBlock(lines)]
    requires forall b | b in prefix :: CleanBlock(b)
    requires PlainNames(lines) && forall a | a in lines :: LeadFree(a.value)
    requires image != [] && '"' !in image && '=' !in image
    ensures !Contains(ImagePatch.UpdateContainerImage(RenderAll(blocks), image), Placeholder)
  {
    LayoutOnce(blocks, prefix, stamp, lines);
    var i :| OnlyOccurrence(RenderAll(blocks), Placeholder, i);
    ImagePatch.PatchClearsPlaceholder(RenderAll(blocks), image, i);
  }

  // ---------------------------------------------------------------------
  // The file `createTerraformVars` writes

  lemma QuotedIfPresentPlain(m: seq<Entry>, key: string, name: string)
    requires 'c' !in name
    ensures PlainNames(QuotedIfPresent(m, key, name))
  {
  }

  lemma DatasourceNamesPlain(c: seq<Entry>)
    requires DatasourceLines(c).Ok?
    ensures PlainNames(DatasourceLines(c).value)
  {
    if SubMap(c, "datasource", "datasource").value.Some? {
      var m := SubMap(c, "datasource", "datasource").value.value;
      QuotedIfPresentPlain(m, "url", "database_url");
      QuotedIfPresentPlain(m, "username", "database_username");
      QuotedIfPresentPlain(m, "password", "database_password");
    }
  }

  lemma MongoNamesPlain(c: seq<Entry>)
    requires MongoLines(c).Ok?
    ensures PlainNames(MongoLines(c).value)
  {
    assert 'c' !in "mongodb_uri";
  }

  lemma RedisNamesPlain(c: seq<Entry>)
    requires RedisLines(c).Ok?
    ensures PlainNames(RedisLines(c).value)
  {
    if SubMap(c, "redis", "redis").value.Some? {
      var m := SubMap(c, "redis", "redis").value.value;
      QuotedIfPresentPlain(m, "host", "redis_host");
      assert 'c' !in "redis_port";
      QuotedIfPresentPlain(m, "password", "redis_password");
    }
  }

  lemma KafkaNamesPlain(c: seq<Entry>)
    requires KafkaLines(c).Ok?
    ensures PlainNames(KafkaLines(c).value)
  {
    assert 'c' !in "kafka_bootstrap_servers";
  }

  /** The connection-information lines are all named without a `c`. */
  lemma ConnectionNamesPlain(c: seq<Entry>)
    requires ConnectionLines(c).Ok?
    ensures PlainNames(ConnectionLines(c).value)
  {
    DatasourceNamesPlain(c);
    MongoNamesPlain(c);
    RedisNamesPlain(c);
    KafkaNamesPlain(c);
  }

  /** `System.getenv` of a variable whose value is free of the lead (or of a
      missing one, printed as `null`) is free of the lead. */
  lemma EnvTextLeadFree(env: map<string, string>, k: string)
    requires forall key | key in env :: LeadFree(env[key])
    ensures LeadFree(EnvText(env, k))
  {
  }

  /** The head and the detected services' blocks are clear when the
      location, the resource group and the environment are. */
  lemma PrefixClean(withToken: bool, env: map<string, string>, location: string, resourceGroup: string,
                    ds: seq<Dependency>, clock: Clock)
    requires LeadFree(location) && LeadFree(resourceGroup)
    requires forall k | k in env :: LeadFree(env[k])
    ensures forall b | b in HeadBlocks(withToken, env, location, resourceGroup) + VarsLayout.ServiceBlocks(ds, clock) ::
      CleanBlock(b)
  {
    EnvTextLeadFree(env, "ARM_CLIENT_ID");
    EnvTextLeadFree(env, "ARM_CLIENT_SECRET");
    EnvTextLeadFree(env, "ARM_TENANT_ID");
    EnvTextLeadFree(env, "ARM_SUBSCRIPTION_ID");
    VarsLayout.ServiceBlocksShape(ds, clock);
  }

  /** The successful synthesis, by parts: the blocks the helpers leave, the
      empty-image app block and the connection lines of the rewritten
      configuration. */
  lemma SynthesizedParts(config: seq<Entry>, withToken: bool, env: map<string, string>,
                         location: string, resourceGroup: string, clock: Clock)
    requires Synthesize(config, withToken, env, location, resourceGroup, clock).Ok?
    ensures var d := Synthesize(config, withToken, env, location, resourceGroup, clock).value;
      && ConnectionLines(d.config).Ok?
      && d.blocks == (HeadBlocks(withToken, env, location, resourceGroup)
                      + VarsLayout.ServiceBlocks(VarsLayout.Detected(config), clock))
                     + [AppBlock(clock.app, "")] + [ConnectionBlock(ConnectionLines(d.config).value)]
  {
    VarsLayout.ServicesLayout(HeadBlocks(withToken, env, location, resourceGroup), config, clock);
  }

  /** The file `createTerraformVars` writes always holds the empty image
      line, in its app block. */
  lemma SynthesizedHasPlaceholder(config: seq<Entry>, withToken: bool, env: map<string, string>,
                                  location: string, resourceGroup: string, clock: Clock)
    requires Synthesize(config, withToken, env, location, resourceGroup, clock).Ok?
    ensures Contains(RenderAll(Synthesize(config, withToken, env, location, resourceGroup, clock).value.blocks),
                     Placeholder)
  {
    var d := Synthesize(config, withToken, env, location, resourceGroup, clock).value;
    SynthesizedParts(config, withToken, env, location, resourceGroup, clock);
    LayoutHasPlaceholder(d.blocks, HeadBlocks(withToken, env, location, resourceGroup)
                         + VarsLayout.ServiceBlocks(VarsLayout.Detected(config), clock),
                         clock.app, ConnectionLines(d.config).value);
  }

  /** When the location, the resource group, the environment variables and
      the connection values are free of `container_image = "`, the blocks
      `createTerraformVars` lays out before the app block are clear and the
      connection section's names and values are plain. */
  lemma SynthesizedClean(config: seq<Entry>, withToken: bool, env: map<string, string>,
                         location: string, resourceGroup: string, clock: Clock)
    requires Synthesize(config, withToken, env, location, resourceGroup, clock).Ok?
    requires LeadFree(location) && LeadFree(resourceGroup)
    requires forall k | k in env :: LeadFree(env[k])
    requires var d := Synthesize(config, withToken, env, location, resourceGroup, clock).value;
      ConnectionLines(d.config).Ok? && forall a | a in ConnectionLines(d.config).value :: LeadFree(a.value)
    ensures var d := Synthesize(config, withToken, env, location, resourceGroup, clock).value;
      var prefix := HeadBlocks(withToken, env, location, resourceGroup)
                    + VarsLayout.ServiceBlocks(VarsLayout.Detected(config), clock);
      var lines := ConnectionLines(d.config).value;
      && d.blocks == prefix + [AppBlock(clock.app, "")] + [ConnectionBlock(lines)]
      && (forall b | b in prefix :: CleanBlock(b))
      && PlainNames(lines) && forall a | a in lines :: LeadFree(a.value)
  {
    var d := Synthesize(config, withToken, env, location, resourceGroup, clock).value;
    SynthesizedParts(config, withToken, env, location, resourceGroup, clock);
    PrefixClean(withToken, env, location, resourceGroup, VarsLayout.Detected(config), clock);
    ConnectionNamesPlain(d.config);
  }

  /** Under those conditions the file `createTerraformVars` writes holds the
      empty image line exactly once. */
  lemma SynthesizedOnce(config: seq<Entry>, withToken: bool, env: map<string, string>,
                        location: string, resourceGroup: string, clock: Clock)
    requires Synthesize(config, withToken, env, location, resourceGroup, clock).Ok?
    requires LeadFree(location) && LeadFree(resourceGroup)
    requires forall k | k in env :: LeadFree(env[k])
    requires var d := Synthesize(config, withToken, env, location, resourceGroup, clock).value;
      ConnectionLines(d.config).Ok? && forall a | a in ConnectionLines(d.config).value :: LeadFree(a.value)
    ensures exists i ::
      OnlyOccurrence(RenderAll(Synthesize(config, withToken, env, location, resourceGroup, clock).value.blocks),
                     Placeholder, i)
  {
    var d := Synthesize(config, withToken, env, location, resourceGroup, clock).value;
    SynthesizedClean(config, withToken, env, location, resourceGroup, clock);
    LayoutOnce(d.blocks, HeadBlocks(withToken, env, location, resourceGroup)
               + VarsLayout.ServiceBlocks(VarsLayout.Detected(config), clock),
               clock.app, ConnectionLines(d.config).value);
  }

  /** Under those conditions `updateContainerImage` turns the file
      `createTerraformVars` writes into the same file with the image in the
      app block. */
  lemma PatchSynthesized(config: seq<Entry>, withToken: bool, env: map<string, string>,
                         location: string, resourceGroup: string, clock: Clock, image: string)
    requires Synthesize(config, withToken, env, location, resourceGroup, clock).Ok?
    requires LeadFree(location) && LeadFree(resourceGroup)
    requires forall k | k in env :: LeadFree(env[k])
    requires var d := Synthesize(config, withToken, env, location, resourceGroup, clock).value;
      ConnectionLines(d.config).Ok? && forall a | a in ConnectionLines(d.config).value :: LeadFree(a.value)
    ensures var blocks := Synthesize(config, withToken, env, location, resourceGroup, clock).value.blocks;
      ImagePatch.UpdateContainerImage(RenderAll(blocks), image)
      == RenderAll(blocks[|blocks| - 2 := AppBlock(clock.app, image)])
  {
    var d := Synthesize(config, withToken, env, location, resourceGroup, clock).value;
    SynthesizedClean(config, withToken, env, location, resourceGroup, clock);
    LayoutPatched(d.blocks, HeadBlocks(withToken, env, location, resourceGroup)
                  + VarsLayout.ServiceBlocks(VarsLayout.Detected(config), clock),
                  clock.app, ConnectionLines(d.config).value, image);
  }

  /** Under those conditions, patching the file `createTerraformVars` writes
      with an image name free of quotes and `=` leaves no empty image line. */
  lemma PatchedSynthesizedCleared(config: seq<Entry>, withToken: bool, env: map<string, string>,
                                  location: string, resourceGroup: string, clock: Clock, image: string)
    requires Synthesize(config, withToken, env, location, resourceGroup, clock).Ok?
    requires LeadFree(location) && LeadFree(resourceGroup)
    requires forall k | k in env :: LeadFree(env[k])
    requires var d := Synthesize(config, withToken, env, location, resourceGroup, clock).value;
      ConnectionLines(d.config).Ok? && forall a | a in ConnectionLines(d.config).value :: LeadFree(a.value)
    requires image != [] && '"' !in image && '=' !in image
    ensures !Contains(ImagePatch.UpdateContainerImage(
              RenderAll(Synthesize(config, withToken, env, location, resourceGroup, clock).value.blocks), image),
            Placeholder)
  {
    var d := Synthesize(config, withToken, env, location, resourceGroup, clock).value;
    SynthesizedClean(config, withToken, env, location, resourceGroup, clock);
    LayoutCleared(d.blocks, HeadBlocks(withToken, env, location, resourceGroup)
                  + VarsLayout.ServiceBlocks(VarsLayout.Detected(config), clock),
                  clock.app, ConnectionLines(d.config).value, image);
  }
}
