/**
 * Source types and the URL source classifier,
 * `MusicDownloader.detect_source_type`: a chain of substring tests in a
 * fixed priority order, archive first.
 */
module Classifier {
  import opened Text

  /**
   * A source type. The program passes source types around as strings; the
   * four it knows are constructors here, and any other string is `Other`.
   */
  datatype SourceType = Archive | SoundCloud | Bandcamp | DirectLink | Other(name: string)

  // The host substrings the classifier looks for.
  const ArchiveHost := "archive.org"
  const SoundCloudHost := "soundcloud.com"
  const BandcampHost := "bandcamp.com"

  /** The string the program uses for a source type. */
  function TypeName(t: SourceType): string
  {
    match t
    case Archive => "archive"
    case SoundCloud => "soundcloud"
    case Bandcamp => "bandcamp"
    case DirectLink => "direct_link"
    case Other(name) => name
  }

  /** The strings of the four known source types. */
  predicate IsKnownName(s: string)
  {
    s == "archive" || s == "soundcloud" || s == "bandcamp" || s == "direct_link"
  }

  /** Reads a source-type string: one of the four known names, or `Other`. */
  function TypeNamed(s: string): (t: SourceType)
    ensures TypeName(t) == s
    ensures t.Other? <==> !IsKnownName(s)
  {
    if s == "archive" then Archive
    else if s == "soundcloud" then SoundCloud
    else if s == "bandcamp" then Bandcamp
    else if s == "direct_link" then DirectLink
    else Other(s)
  }

  /** Naming a source type and reading the name back gives the same type. */
  lemma NameRoundTrip(t: SourceType)
    requires t.Other? ==> !IsKnownName(t.name)
    ensures TypeNamed(TypeName(t)) == t
  {
  }

  /**
   * Classifies a URL. Total: every URL gets one of the four known types. A
   * URL that mentions `archive.org` is an archive whatever else it
   * mentions; below that, SoundCloud beats Bandcamp; and the fallback
   * `direct_link` is returned exactly when none of the three hosts is
   * mentioned.
   */
  function DetectSourceType(url: string): (t: SourceType)
    ensures !t.Other?
    ensures t == Archive <==> Contains(url, ArchiveHost)
    ensures t == SoundCloud <==> !Contains(url, ArchiveHost) && Contains(url, SoundCloudHost)
    ensures t == Bandcamp <==>
              !Contains(url, ArchiveHost) && !Contains(url, SoundCloudHost) && Contains(url, BandcampHost)
    ensures t == DirectLink <==>
              !Contains(url, ArchiveHost) && !Contains(url, SoundCloudHost) && !Contains(url, BandcampHost)
  {
    if Contains(url, ArchiveHost) then Archive
    else if Contains(url, SoundCloudHost) then SoundCloud
    else if Contains(url, BandcampHost) then Bandcamp
    else DirectLink
  }

  /** Mentioning `archive.org` anywhere decides the type, even alongside the other hosts. */
  lemma ArchiveHasPriority(url: string, i: int)
    requires OccursAt(url, ArchiveHost, i)
    ensures DetectSourceType(url) == Archive
  {
    ContainsIff(url, ArchiveHost);
  }

  /** A URL mentioning neither `soundcloud.com` nor `bandcamp.com` is an archive or a direct link. */
  lemma NoPlatformHost(url: string)
    requires !Contains(url, SoundCloudHost) && !Contains(url, BandcampHost)
    ensures DetectSourceType(url) == (if Contains(url, ArchiveHost) then Archive else DirectLink)
  {
  }
}
