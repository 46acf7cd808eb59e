// The pinned normal form of a paid image request.
module ImagePayload {
  import opened Prelude
  import Text

  /** An inline reference image; `decodes` says whether its text is base64 of a
      PNG or JPEG signature. */
  datatype Reference = Reference(base64: string, decodes: bool)

  datatype Value = Str(s: string) | Int(n: int) | Bool(b: bool) | References(refs: seq<Reference>) | Null

  type Request = map<string, Value>

  const REQUIRED: set<string> := {"prompt", "generate_count", "model", "aspect_ratio", "resolution", "watermark"}
  const RATIOS: set<string> := {"16:9", "9:16", "1:1", "3:4", "4:3"}
  const TEXT_TO_IMAGE := "https://giggle.pro/api/v1/generation/text-to-image"
  const IMAGE_TO_IMAGE := "https://giggle.pro/api/v1/generation/image-to-image"

  datatype PayloadError = Unsupported | RatioNeeds2K | BadReferenceCount | BadReference | ReferencesTooLarge

  datatype Payload = Payload(endpoint: string, body: Request)

  predicate IsBlank(s: string) {
    forall i :: 0 <= i < |s| ==> Text.IsSpace(s[i])
  }

  predicate SupportedFields(r: Request) {
    && r.Keys <= REQUIRED + {"reference_images"} && REQUIRED <= r.Keys
    && r["model"] == Str("gpt-image-2-pro") && r["generate_count"] == Int(1) && r["watermark"] == Bool(false)
    && r["resolution"] in {Str("1K"), Str("2K")}
    && r["aspect_ratio"].Str? && r["aspect_ratio"].s in RATIOS
    && r["prompt"].Str? && !IsBlank(r["prompt"].s) && |r["prompt"].s| <= 10_000
  }

  /** The loop over references, with its running size. */
  function CheckReferences(refs: seq<Reference>, size: nat): Option<PayloadError> {
    if refs == [] then None
    else
      var size' := size + |refs[0].base64|;
      if size' > 20_000_000 then Some(ReferencesTooLarge)
      else if !refs[0].decodes then Some(BadReference)
      else CheckReferences(refs[1..], size')
  }

  function NormalForm(r: Request): Result<Payload, PayloadError> {
    if !SupportedFields(r) then Err(Unsupported)
    else if r["aspect_ratio"].s in {"16:9", "9:16"} && r["resolution"] == Str("1K") then Err(RatioNeeds2K)
    else
      var refs := if "reference_images" in r then r["reference_images"] else References([]);
      if !refs.References? || |refs.refs| > 9 then Err(BadReferenceCount)
      else
        match CheckReferences(refs.refs, 0)
        case Some(error) => Err(error)
        case None =>
          var body := map k | k in REQUIRED :: r[k];
          if refs.refs == [] then Ok(Payload(TEXT_TO_IMAGE, body))
          else Ok(Payload(IMAGE_TO_IMAGE, body["reference_images" := refs]))
  }

  /** The transport normalises the payload again; it always gets the very bytes
      the durable intent was hashed from. */
  lemma NormalFormIsStable(r: Request)
    requires NormalForm(r).Ok?
    ensures NormalForm(NormalForm(r).value.body) == NormalForm(r)
  {
    var p := NormalForm(r).value;
    assert (map k | k in REQUIRED :: p.body[k]) == (map k | k in REQUIRED :: r[k]);
  }

  /** Nothing is invented or altered, and only an empty reference list is dropped. */
  lemma NormalFormKeepsTheRequest(r: Request)
    requires NormalForm(r).Ok?
    ensures var body := NormalForm(r).value.body;
            && (forall k :: k in body ==> k in r && body[k] == r[k])
            && (forall k :: k in r && k !in body ==> k == "reference_images" && r[k] == References([]))
            && (NormalForm(r).value.endpoint == IMAGE_TO_IMAGE <==> "reference_images" in body)
  {
  }

  /** Two requests that differ after normalising reach the provider as different bytes. */
  lemma DifferentRequestsDiffer(a: Request, b: Request)
    requires NormalForm(a).Ok? && NormalForm(b).Ok?
    requires NormalForm(a).value == NormalForm(b).value
    ensures forall k :: k in REQUIRED ==> a[k] == b[k]
    ensures "reference_images" in a && a["reference_images"] != References([]) ==>
              "reference_images" in b && b["reference_images"] == a["reference_images"]
  {
    var p := NormalForm(a).value;
    NormalFormKeepsTheRequest(a);
  }

  function Sizes(refs: seq<Reference>): seq<int> {
    seq(|refs|, i requires 0 <= i < |refs| => |refs[i].base64|)
  }

  /** The loop with its running size, as a bound on the whole. */
  lemma {:induction false} ReferencesFitIff(refs: seq<Reference>, size: nat)
    requires size <= 20_000_000
    ensures CheckReferences(refs, size).None?
            <==> size + Sum(Sizes(refs)) <= 20_000_000 && forall i :: 0 <= i < |refs| ==> refs[i].decodes
  {
    if refs != [] {
      var rest := refs[1..];
      assert Sizes(refs) == [|refs[0].base64|] + Sizes(rest);
      SumAppend([|refs[0].base64|], Sizes(rest));
      assert Sum([|refs[0].base64|]) == |refs[0].base64|;
      SumNonNegative(Sizes(rest));
      if size + |refs[0].base64| <= 20_000_000 {
        ReferencesFitIff(rest, size + |refs[0].base64|);
      }
      assert forall i :: 0 < i < |refs| ==> refs[i] == rest[i - 1];
    }
  }

  /** What a caller of the paid endpoint must send, condition by condition. */
  lemma AcceptedIff(r: Request)
    ensures NormalForm(r).Ok? <==>
            && (forall k :: k in {"prompt", "generate_count", "model", "aspect_ratio", "resolution", "watermark"} ==>
                  k in r)
            && (forall k :: k in r ==>
                  k in {"prompt", "generate_count", "model", "aspect_ratio", "resolution", "watermark",
                        "reference_images"})
            && r["model"] == Str("gpt-image-2-pro") && r["generate_count"] == Int(1) && r["watermark"] == Bool(false)
            && (|| (r["resolution"] == Str("2K")
                    && r["aspect_ratio"] in {Str("16:9"), Str("9:16"), Str("1:1"), Str("3:4"), Str("4:3")})
                || (r["resolution"] == Str("1K") && r["aspect_ratio"] in {Str("1:1"), Str("3:4"), Str("4:3")}))
            && r["prompt"].Str? && |r["prompt"].s| <= 10_000
            && (exists i :: 0 <= i < |r["prompt"].s| && !Text.IsSpace(r["prompt"].s[i]))
            && ("reference_images" in r ==>
                  && r["reference_images"].References?
                  && |r["reference_images"].refs| <= 9
                  && Sum(Sizes(r["reference_images"].refs)) <= 20_000_000
                  && forall i :: 0 <= i < |r["reference_images"].refs| ==> r["reference_images"].refs[i].decodes)
  {
    if "reference_images" in r && r["reference_images"].References? {
      ReferencesFitIff(r["reference_images"].refs, 0);
    }
  }
}
