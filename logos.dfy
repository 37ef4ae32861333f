/**
 * The company logo table and its save rule: a logo needs an image URL, and
 * saving an active logo deactivates every other row, so that at most one
 * logo is active. Rows are keyed by primary key; the creation and update
 * timestamps are not modelled.
 */
module Logos {
  import opened Wrappers

  datatype Logo = Logo(name: string, imageUrl: string, isActive: bool)

  /** The default display name of a logo. */
  const DefaultName: string := "شركة الريادة"

  /** A logo created with only its image URL: default name, active by default. */
  function NewLogo(imageUrl: string): (l: Logo)
    ensures l.imageUrl == imageUrl && l.name == DefaultName && l.isActive
  {
    Logo(DefaultName, imageUrl, true)
  }

  /** The table's intended invariant: no two rows are active. */
  ghost predicate AtMostOneActive(rows: map<int, Logo>) {
    forall j, k :: j in rows && k in rows && rows[j].isActive && rows[k].isActive ==> j == k
  }

  /** `Logo.objects.exclude(pk=pk).update(is_active=False)`. */
  function DeactivateOthers(rows: map<int, Logo>, pk: int): (r: map<int, Logo>)
    ensures r.Keys == rows.Keys
    ensures forall k :: k in rows && k != pk ==> r[k] == rows[k].(isActive := false)
    ensures pk in rows ==> r[pk] == rows[pk]
  {
    map k | k in rows :: if k == pk then rows[k] else rows[k].(isActive := false)
  }

  /**
   * `Logo.save`: `None` (the `ValueError`) for an empty image URL, otherwise
   * the table after the optional bulk deactivation and the write of the row.
   */
  function SaveTable(rows: map<int, Logo>, pk: int, logo: Logo): (r: Option<map<int, Logo>>)
    ensures r.None? <==> logo.imageUrl == ""
    ensures r.Some? ==> r.value.Keys == rows.Keys + {pk} && r.value[pk] == logo
    ensures r.Some? && !logo.isActive ==> forall k :: k in rows && k != pk ==> r.value[k] == rows[k]
    ensures r.Some? && logo.isActive ==> forall k :: k in r.value && r.value[k].isActive ==> k == pk
    ensures r.Some? && logo.isActive ==> forall k :: k in rows && k != pk ==> r.value[k] == rows[k].(isActive := false)
  {
    if logo.imageUrl == "" then None
    else if logo.isActive then Some(DeactivateOthers(rows, pk)[pk := logo])
    else Some(rows[pk := logo])
  }

  /** Every successful save keeps the table's at-most-one-active invariant. */
  lemma SavePreservesSingleActive(rows: map<int, Logo>, pk: int, logo: Logo)
    requires AtMostOneActive(rows) && logo.imageUrl != ""
    ensures AtMostOneActive(SaveTable(rows, pk, logo).value)
  {
  }

  /**
   * Saving an active logo repairs a table with several active rows, while
   * saving an inactive one leaves them: the invariant is restored only by
   * active saves.
   */
  lemma OnlyActiveSaveRestoresInvariant(rows: map<int, Logo>, pk: int, logo: Logo)
    requires logo.imageUrl != ""
    ensures logo.isActive ==> AtMostOneActive(SaveTable(rows, pk, logo).value)
    ensures !logo.isActive && !AtMostOneActive(rows - {pk}) ==> !AtMostOneActive(SaveTable(rows, pk, logo).value)
  {
    if !logo.isActive && !AtMostOneActive(rows - {pk}) {
      var saved := SaveTable(rows, pk, logo).value;
      var j, k :| j in rows - {pk} && k in rows - {pk} && rows[j].isActive && rows[k].isActive && j != k;
      assert saved[j] == rows[j] && saved[k] == rows[k];
    }
  }

  /** Creating a logo from an image URL alone makes it the single active logo. */
  lemma NewLogoBecomesTheActiveOne(rows: map<int, Logo>, pk: int, imageUrl: string)
    requires imageUrl != ""
    ensures var saved := SaveTable(rows, pk, NewLogo(imageUrl)).value;
      saved[pk].isActive && forall k :: k in saved && k != pk ==> !saved[k].isActive
  {
  }

  /** The logo table, updated in place by saves and by bulk deletes. */
  class LogoTable {
    var rows: map<int, Logo>

    constructor (initial: map<int, Logo>)
      ensures rows == initial
    {
      rows := initial;
    }

    /** `Logo.save` for the row with primary key `pk` (inserted when new, overwritten otherwise). */
    method Save(pk: int, logo: Logo) returns (saved: bool)
      modifies this
      ensures saved <==> logo.imageUrl != ""
      ensures !saved ==> rows == old(rows)
      ensures saved ==> rows == SaveTable(old(rows), pk, logo).value
      ensures saved && AtMostOneActive(old(rows)) ==> AtMostOneActive(rows)
    {
      if logo.imageUrl == "" {
        return false;
      }
      if AtMostOneActive(rows) {
        SavePreservesSingleActive(rows, pk, logo);
      }
      if logo.isActive {
        rows := DeactivateOthers(rows, pk);
      }
      rows := rows[pk := logo];
      saved := true;
    }

    /** `Logo.objects.filter(<condition on image_url>).delete()`. */
    method DeleteWhere(matches: string -> bool)
      modifies this
      ensures rows == map k | k in old(rows) && !matches(old(rows)[k].imageUrl) :: old(rows)[k]
    {
      rows := map k | k in rows && !matches(rows[k].imageUrl) :: rows[k];
    }
  }
}
