// Rewriting a Cloudinary delivery URL so the image is served at twice the
// displayed size: the transformation is spliced in right after "/upload/".
module CloudinaryUrl {
  import Text

  const Upload := "/upload/"

  const Fixed := ",c_fill,f_auto,q_auto,dpr_2.0"

  /** The transformation segment for a display box of `width` by `height`. */
  function Transformation(width: nat, height: nat): string
  {
    Segment(Text.NatToString(width * 2), Text.NatToString(height * 2))
  }

  function Segment(w: string, h: string): (t: string)
    ensures |t| == 2 + |w| + 3 + |h| + |Fixed|
    ensures t[2..2 + |w|] == w && t[2 + |w| + 3..2 + |w| + 3 + |h|] == h
  {
    var t := "w_" + w + ",h_" + h + Fixed;
    assert t == "w_" + (w + (",h_" + (h + Fixed)));
    t
  }

  /** The width the transformation asks for is twice the given one, and so is the
      height. */
  lemma TransformationDoubles(width: nat, height: nat)
    ensures var w := |Text.NatToString(width * 2)|;
            var h := |Text.NatToString(height * 2)|;
            && Text.DecimalValue(Transformation(width, height)[2..2 + w]) == 2 * width
            && Text.DecimalValue(Transformation(width, height)[2 + w + 3..2 + w + 3 + h]) == 2 * height
  {
    Text.DecimalRoundTrip(width * 2);
    Text.DecimalRoundTrip(height * 2);
  }

  /** `optimizeCloudinaryImage`: unless "/upload/" splits the URL into exactly
      two parts, the URL is returned as it is. */
  function Optimize(url: string, width: nat, height: nat): (r: string)
    ensures |Text.Split(url, Upload)| != 2 ==> r == url
  {
    var parts := Text.Split(url, Upload);
    if |parts| != 2 then url
    else parts[0] + Upload + Transformation(width, height) + "/" + parts[1]
  }

  /** A rewritten URL keeps everything before and after "/upload/" and inserts
      the transformation and one '/' in between; neither kept part mentions
      "/upload/", and nothing before the cut starts an occurrence of it. */
  lemma OptimizeSplices(url: string, width: nat, height: nat)
    requires |Text.Split(url, Upload)| == 2
    ensures exists prefix, suffix ::
      && url == prefix + Upload + suffix
      && !Text.Contains(prefix, Upload) && !Text.Contains(suffix, Upload)
      && (forall k :: 0 <= k < |prefix| ==> !(Upload <= url[k..]))
      && Optimize(url, width, height) == prefix + Upload + Transformation(width, height) + "/" + suffix
  {
    var parts := Text.Split(url, Upload);
    Text.SplitTwoPieces(url, Upload);
    var prefix, suffix := parts[0], parts[1];
    assert !Text.Contains(prefix, Upload) && !Text.Contains(suffix, Upload);
    assert forall k :: 0 <= k < |prefix| ==> !(Upload <= url[k..]);
    assert Optimize(url, width, height) == prefix + Upload + Transformation(width, height) + "/" + suffix;
  }

  /** A URL that does not mention "/upload/" is not touched. */
  lemma NotCloudinaryUnchanged(url: string, width: nat, height: nat)
    requires !Text.Contains(url, Upload)
    ensures Optimize(url, width, height) == url
  {
    Text.SplitWithoutSeparator(url, Upload);
  }

  /** A URL that mentions "/upload/" twice, without overlap, is not touched. */
  lemma TwoUploadsUnchanged(x: string, y: string, z: string, width: nat, height: nat)
    ensures Optimize(x + Upload + y + Upload + z, width, height) == x + Upload + y + Upload + z
  {
    Text.SplitTwoOccurrences(x, y, z, Upload);
  }
}
