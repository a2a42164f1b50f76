/** DeePray's neural factorization machine: how `build` reads the hidden-layer
    sizes from the comma-separated `deep_layers` flag, and the order in which
    `build_network` applies its two layers. The layers themselves come from
    builders outside this model and appear as opaque functions. */
module ModelNfm {
  import opened Wrappers
  import opened PyStr

  /** `int` raised ValueError on this piece. */
  datatype ParseError = InvalidLiteral(literal: string)

  /** `[parse(h) for h in pieces]` for a `parse` that may raise: the value of
      every piece, in order, or the first piece `parse` rejects, with no
      partial list. */
  function ParseEach(pieces: seq<string>, parse: string -> Option<int>): (r: Result<seq<int>, ParseError>)
    ensures r.Success? <==> forall i :: 0 <= i < |pieces| ==> parse(pieces[i]).Some?
    ensures r.Success? ==> |r.value| == |pieces|
    ensures r.Success? ==> forall i :: 0 <= i < |pieces| ==> parse(pieces[i]) == Some(r.value[i])
    ensures r.Failure? ==>
      exists k :: 0 <= k < |pieces| && r.error == InvalidLiteral(pieces[k]) && parse(pieces[k]) == None
        && forall j :: 0 <= j < k ==> parse(pieces[j]).Some?
  {
    if pieces == [] then Success([])
    else
      match parse(pieces[0])
      case None => Failure(InvalidLiteral(pieces[0]))
      case Some(v) =>
        match ParseEach(pieces[1..], parse)
        case Success(vs) => Success([v] + vs)
        case Failure(e) => Failure(e)
  }

  /** The hidden-layer sizes `build` reads from `deep_layers`: one per
      comma-separated piece, each the integer that piece denotes. */
  function ParseDeepLayers(deepLayers: string): (r: Result<seq<int>, ParseError>)
    ensures r.Success? ==> |r.value| == Count(deepLayers, ',') + 1
    ensures r.Success? ==> forall i :: 0 <= i < |r.value| ==> ParseInt(Split(deepLayers, ',')[i]) == Some(r.value[i])
    ensures r.Failure? ==>
      exists k :: 0 <= k < |Split(deepLayers, ',')| && r.error == InvalidLiteral(Split(deepLayers, ',')[k])
        && ParseInt(Split(deepLayers, ',')[k]) == None
  {
    ParseEach(Split(deepLayers, ','), ParseInt)
  }

  /** Without a comma the flag names a single layer. */
  lemma SingleLayer(deepLayers: string)
    requires ',' !in deepLayers
    ensures ParseDeepLayers(deepLayers) ==
      match ParseInt(deepLayers)
      case Some(v) => Success([v])
      case None => Failure(InvalidLiteral(deepLayers))
  {
    SplitWithoutSeparator(deepLayers, ',');
    assert [deepLayers][1..] == [];
    assert ParseEach([deepLayers][1..], ParseInt) == Success([]);
    match ParseInt(deepLayers)
    case Some(v) => assert [v] + [] == [v];
    case None =>
  }

  /** An empty piece, from an empty flag, a leading or trailing comma or two
      adjacent commas, makes the whole parse fail. */
  lemma EmptyPieceFails(deepLayers: string)
    requires deepLayers == [] || deepLayers[0] == ',' || deepLayers[|deepLayers| - 1] == ','
      || exists i :: 0 <= i < |deepLayers| - 1 && deepLayers[i] == ',' && deepLayers[i + 1] == ','
    ensures ParseDeepLayers(deepLayers).Failure?
  {
    var s := deepLayers;
    ParseIntEmpty();
    if s == [] {
      assert Split(s, ',')[0] == "";
    } else if s[0] == ',' {
      assert s == [] + [','] + s[1..];
      SplitAtSeparator([], s[1..], ',');
      assert Split(s, ',')[0] == "";
    } else if s[|s| - 1] == ',' {
      assert s == s[..|s| - 1] + [','] + [];
      SplitAtSeparator(s[..|s| - 1], [], ',');
      assert Split(s, ',')[|Split(s[..|s| - 1], ',')|] == "";
    } else {
      var i :| 0 <= i < |s| - 1 && s[i] == ',' && s[i + 1] == ',';
      assert s == s[..i] + [','] + ([] + [','] + s[i + 2..]);
      SplitAtSeparator(s[..i], [] + [','] + s[i + 2..], ',');
      SplitAtSeparator([], s[i + 2..], ',');
      assert Split(s, ',')[|Split(s[..i], ',')|] == "";
    }
  }

  /** A character that is neither a digit, a sign, whitespace nor a comma
      makes the whole parse fail. */
  lemma NonNumericFails(deepLayers: string, i: int)
    requires 0 <= i < |deepLayers|
    requires !IsDigit(deepLayers[i]) && !IsSpace(deepLayers[i])
    requires deepLayers[i] !in {'+', '-', ','}
    ensures ParseDeepLayers(deepLayers).Failure?
  {
    var pieces := Split(deepLayers, ',');
    SplitKeeps(deepLayers, ',', i);
    var k, j :| 0 <= k < |pieces| && 0 <= j < |pieces[k]| && pieces[k][j] == deepLayers[i];
    if ParseInt(pieces[k]).Some? {
      LiteralChars(pieces[k]);
    }
  }

  /** The decimal form of each size, as `str` writes it. */
  function Decimals(sizes: seq<int>): (r: seq<string>)
    ensures |r| == |sizes|
    ensures forall i :: 0 <= i < |sizes| ==> r[i] == IntToString(sizes[i])
  {
    if sizes == [] then [] else [IntToString(sizes[0])] + Decimals(sizes[1..])
  }

  lemma ParseAllDecimals(sizes: seq<int>)
    ensures ParseEach(Decimals(sizes), ParseInt) == Success(sizes)
  {
    var pieces := Decimals(sizes);
    forall i | 0 <= i < |pieces| ensures ParseInt(pieces[i]) == Some(sizes[i]) {
      ParseIntToString(sizes[i]);
    }
    var r := ParseEach(pieces, ParseInt);
    assert r.Success?;
    assert r.value == sizes;
  }

  /** A piece that is not a literal of the modelled grammar makes the whole
      parse fail, wherever it stands. */
  lemma NonLiteralFails(deepLayers: string, k: int)
    requires 0 <= k < |Split(deepLayers, ',')|
    requires !IsIntLiteral(Split(deepLayers, ',')[k])
    ensures ParseDeepLayers(deepLayers).Failure?
  {
  }

  /** Writing a non-empty list of sizes as `deep_layers` reads it back. */
  lemma DeepLayersRoundTrip(sizes: seq<int>)
    requires |sizes| > 0
    ensures ParseDeepLayers(Join(Decimals(sizes), ',')) == Success(sizes)
  {
    var pieces := Decimals(sizes);
    forall i | 0 <= i < |pieces| ensures ',' !in pieces[i] {
      var d := pieces[i];
      assert forall j :: 0 <= j < |d| ==> d[j] != ',';
    }
    SplitJoin(pieces, ',');
    ParseAllDecimals(sizes);
  }

  /** `build_network`: the bi-interaction layer is applied to the features,
      then the hidden layers to its output. */
  function BuildNetwork<F, H, O>(interaction: F -> H, hidden: H -> O, features: F): O
  {
    hidden(interaction(features))
  }

  datatype LayerTag = BInteraction | HiddenStack

  /** Layer `f`, extended to append `tag` to a trace each time it is applied. */
  function Traced<A, B>(f: A -> B, tag: LayerTag): ((A, seq<LayerTag>)) -> (B, seq<LayerTag>)
  {
    (p: (A, seq<LayerTag>)) => (f(p.0), p.1 + [tag])
  }

  /** For any two layers, the logit is the hidden layers' output on the
      bi-interaction layer's output, and each layer is applied exactly once,
      the interaction layer first. */
  lemma NetworkLayerOrder<F, H, O>(interaction: F -> H, hidden: H -> O, features: F, trace: seq<LayerTag>)
    ensures BuildNetwork(Traced(interaction, BInteraction), Traced(hidden, HiddenStack), (features, trace))
         == (hidden(interaction(features)), trace + [BInteraction, HiddenStack])
  {
    var mid := Traced(interaction, BInteraction)((features, trace));
    assert mid == (interaction(features), trace + [BInteraction]);
    assert Traced(hidden, HiddenStack)(mid) == (hidden(interaction(features)), trace + [BInteraction] + [HiddenStack]);
    assert trace + [BInteraction] + [HiddenStack] == trace + [BInteraction, HiddenStack];
  }
}
