/**
 * The logic of the episode card in src/components/episodes/EpisodeCard.tsx:
 * the description shortened for the compact layout, and the press handler.
 */
module EpisodeCard {
  import opened Api

  const MaxDescriptionLength := 100
  const Ellipsis := "..."

  /** `truncatedDescription`: at most 100 characters are kept, and `...` marks a cut. */
  function Truncate(description: string): (shown: string)
    ensures |description| <= MaxDescriptionLength ==> shown == description
    ensures |description| > MaxDescriptionLength ==> shown == description[..MaxDescriptionLength] + Ellipsis
    ensures |shown| <= MaxDescriptionLength + |Ellipsis|
    ensures |description| > MaxDescriptionLength ==> |shown| == 103
    ensures var keep := if |description| < MaxDescriptionLength then |description| else MaxDescriptionLength;
            shown[..keep] == description[..keep]
  {
    if |description| > MaxDescriptionLength then description[..MaxDescriptionLength] + Ellipsis
    else description
  }

  /**
   * Truncating twice is truncating once: a cut result is 103 characters long,
   * and cutting it again keeps the same 100 characters and the same `...`.
   */
  lemma TruncateIdempotent(description: string)
    ensures Truncate(Truncate(description)) == Truncate(description)
  {
    if |description| > MaxDescriptionLength {
      var cut := description[..MaxDescriptionLength];
      assert (cut + Ellipsis)[..MaxDescriptionLength] == cut;
    }
  }

  /** `handlePress`: the card's own episode, unchanged, is what `onPress` receives. */
  function HandlePress<R>(onPress: EpisodeItem -> R, episode: EpisodeItem): (r: R)
    ensures r == onPress(episode)
  {
    onPress(episode)
  }
}
