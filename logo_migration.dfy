/**
 * Data migration 0010 of the products app: delete logos whose image URL is
 * empty or a placeholder, in two passes; the reverse step does nothing.
 */
module LogoMigration {
  import opened Text
  import opened Logos

  const PlaceholderUrl: string := "https://via.placeholder.com/200"
  const PlaceholderPrefix: string := "https://via.placeholder"

  /** The first pass: `image_url__in=['', PlaceholderUrl, None]` (no row has a null URL). */
  predicate InFirstPass(url: string) {
    url == "" || url == PlaceholderUrl
  }

  /** The second pass: `image_url__startswith=PlaceholderPrefix`. */
  predicate InSecondPass(url: string) {
    StartsWith(url, PlaceholderPrefix)
  }

  /** A URL the migration removes. */
  predicate IsInvalidUrl(url: string) {
    InFirstPass(url) || InSecondPass(url)
  }

  /** The table the migration leaves: every row with a valid URL, untouched; nothing else. */
  function Purge(rows: map<int, Logo>): (r: map<int, Logo>)
    ensures forall k :: k in r ==> k in rows && r[k] == rows[k] && !IsInvalidUrl(r[k].imageUrl)
    ensures forall k :: k in rows && !IsInvalidUrl(rows[k].imageUrl) ==> k in r
  {
    map k | k in rows && !IsInvalidUrl(rows[k].imageUrl) :: rows[k]
  }

  /** The exact placeholder URL of the first pass is also caught by the second pass. */
  lemma PlaceholderUrlHasPrefix()
    ensures InSecondPass(PlaceholderUrl)
  {
    assert PlaceholderUrl[..|PlaceholderPrefix|] == PlaceholderPrefix;
  }

  /** Afterwards no remaining URL is empty, the placeholder, or starts with the placeholder prefix. */
  lemma NoInvalidRemains(rows: map<int, Logo>)
    ensures forall k :: k in Purge(rows) ==>
      && Purge(rows)[k].imageUrl != ""
      && Purge(rows)[k].imageUrl != PlaceholderUrl
      && !StartsWith(Purge(rows)[k].imageUrl, PlaceholderPrefix)
  {
  }

  /** A second run deletes nothing more. */
  lemma PurgeIdempotent(rows: map<int, Logo>)
    ensures Purge(Purge(rows)) == Purge(rows)
  {
  }

  /** Deleting rows cannot create a second active logo. */
  lemma PurgeKeepsSingleActive(rows: map<int, Logo>)
    requires AtMostOneActive(rows)
    ensures AtMostOneActive(Purge(rows))
  {
  }

  /** `delete_invalid_logos`: the two filtered deletes, one after the other. */
  method DeleteInvalidLogos(table: LogoTable)
    modifies table
    ensures table.rows == Purge(old(table.rows))
  {
    table.DeleteWhere(InFirstPass);
    table.DeleteWhere(InSecondPass);
  }

  /** `reverse_invalid_logos`: deleted rows are not restored; nothing changes. */
  method ReverseInvalidLogos(table: LogoTable)
    ensures table.rows == old(table.rows)
  {
  }
}
