/** The album and artist records of the music library, their placeholder
    values, and the choice of artist image. */
module Library {
  import opened Optional
  import opened Text

  /** An album; the id is a MediaStore `Long`. */
  datatype Album = Album(id: int, title: string, artist: string, year: int,
                         albumArtUriString: Option<string>, songCount: int)

  /** An artist: `imageUrl` comes from an online lookup, `customImageUri` is
      the user's own picture. */
  datatype Artist = Artist(id: int, name: string, songCount: int,
                           imageUrl: Option<string>, customImageUri: Option<string>)

  /** `Album.empty()`: the placeholder shown before an album loads. */
  function EmptyAlbum(): (a: Album)
    ensures a.id == -1 && a.title == "" && a.artist == "" && a.year == 0
    ensures a.albumArtUriString.None? && a.songCount == 0
  {
    Album(-1, "", "", 0, None, 0)
  }

  /** `Artist.empty()`. */
  function EmptyArtist(): (a: Artist)
    ensures a.id == -1 && a.name == "" && a.songCount == 0
    ensures a.imageUrl.None? && a.customImageUri.None?
  {
    Artist(-1, "", 0, None, None)
  }

  /** `effectiveImageUrl`: the custom image unless it is missing or blank,
      then the looked-up image unless it is missing or blank. */
  function EffectiveImageUrl(a: Artist): Option<string> {
    Elvis(TakeIfNotBlank(a.customImageUri), TakeIfNotBlank(a.imageUrl))
  }

  /** The three cases of `effectiveImageUrl`; a blank custom image falls
      through to the looked-up one. */
  lemma EffectiveImageUrlCases(a: Artist)
    ensures a.customImageUri.Some? && !IsBlank(a.customImageUri.value) ==>
              EffectiveImageUrl(a) == a.customImageUri
    ensures (a.customImageUri.None? || IsBlank(a.customImageUri.value)) &&
            a.imageUrl.Some? && !IsBlank(a.imageUrl.value) ==>
              EffectiveImageUrl(a) == a.imageUrl
    ensures EffectiveImageUrl(a).None? <==>
              (a.customImageUri.None? || IsBlank(a.customImageUri.value)) &&
              (a.imageUrl.None? || IsBlank(a.imageUrl.value))
  {
  }

  /** The chosen image is never blank, and it is one of the two the artist has. */
  lemma EffectiveImageUrlNotBlank(a: Artist)
    ensures EffectiveImageUrl(a).Some? ==> !IsBlank(EffectiveImageUrl(a).value)
    ensures EffectiveImageUrl(a).Some? ==>
              EffectiveImageUrl(a) == a.customImageUri || EffectiveImageUrl(a) == a.imageUrl
  {
  }

  /** The placeholder artist has no image. */
  lemma EmptyArtistHasNoImage()
    ensures EffectiveImageUrl(EmptyArtist()).None?
  {
  }

  /** A whitespace-only custom image, such as a lone space, does not hide the
      looked-up image. */
  lemma BlankCustomImageFallsThrough(id: int, name: string, url: string)
    requires !IsBlank(url)
    ensures EffectiveImageUrl(Artist(id, name, 0, Some(url), Some(" "))) == Some(url)
  {
  }
}
