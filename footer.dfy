/** The footer's Quick Links: each label's href is derived from the label text. */
module Footer {
  import opened Text

  const QuickLinks := ["Home", "About Us", "For Students", "For Caretakers", "Contact"]

  /** The lowercased label with its first space made a dash and its first "for-" dropped. */
  function Slug(lower: string): string
  {
    ReplaceFirst(ReplaceFirst(lower, " ", "-"), "for-", "")
  }

  /** 'Home' is the root; any other label links to '/' and the slug of its lowercase form. */
  function Href(link: string): (r: string)
    ensures |r| >= 1 && r[0] == '/'
  {
    if link == "Home" then "/" else "/" + Slug(ToLower(link))
  }

  /** A pattern whose first character does not appear in `s` does not occur in it. */
  lemma AbsentFirstChar(s: string, p: string)
    requires |p| > 0 && forall j :: 0 <= j < |s| ==> s[j] != p[0]
    ensures forall i :: !OccursAt(s, p, i)
  {
    assert forall i :: OccursAt(s, p, i) ==> s[i..i + |p|][0] == s[i];
  }

  /** The first replacement on a label whose first space is at `k` puts a dash there. */
  lemma DashAt(lower: string, k: nat)
    requires k < |lower| && lower[k] == ' '
    requires forall j :: 0 <= j < k ==> lower[j] != ' '
    ensures ReplaceFirst(lower, " ", "-") == lower[..k] + "-" + lower[k + 1..]
  {
    assert OccursAt(lower, " ", k) by {
      assert lower[k..k + 1] == [lower[k]];
    }
    forall i | 0 <= i < k ensures !OccursAt(lower, " ", i) {
      assert lower[i..i + 1][0] == lower[i];
    }
    ReplaceFirstAt(lower, " ", "-", k);
  }

  /** Any label but 'Home' links to '/' and its slug. */
  lemma HrefOfLabel(link: string)
    requires link != "Home"
    ensures Href(link) == "/" + Slug(ToLower(link))
  {
  }

  lemma SlashJoin(slug: string, href: string)
    requires |href| == |slug| + 1 && href[0] == '/' && href[1..] == slug
    ensures href == "/" + slug
  {
  }

  lemma LowerAboutUs(link: string)
    requires link == "About Us"
    ensures ToLower(link) == "about us"
  {
  }

  lemma LowerForStudents(link: string)
    requires link == "For Students"
    ensures ToLower(link) == "for students"
  {
  }

  lemma LowerForCaretakers(link: string)
    requires link == "For Caretakers"
    ensures ToLower(link) == "for caretakers"
  {
  }

  lemma LowerContact(link: string)
    requires link == "Contact"
    ensures ToLower(link) == "contact"
  {
  }

  /** Only the space is replaced when there is no "for-". */
  lemma SlugAboutUs(lower: string)
    requires lower == "about us"
    ensures Slug(lower) == "about-us"
  {
    DashAt(lower, 5);
    var dashed := ReplaceFirst(lower, " ", "-");
    assert dashed == "about-us";
    AbsentFirstChar(dashed, "for-");
  }

  /** A "for " label loses its first word once the space has become a dash. */
  lemma SlugFor(lower: string, rest: string)
    requires lower == "for " + rest
    ensures Slug(lower) == rest
  {
    DashAt(lower, 3);
    var dashed := ReplaceFirst(lower, " ", "-");
    assert dashed == "for-" + rest;
    assert OccursAt(dashed, "for-", 0);
    ReplaceFirstAt(dashed, "for-", "", 0);
  }

  /** A one-word label without "for-" is its own slug. */
  lemma SlugContact(lower: string)
    requires lower == "contact"
    ensures Slug(lower) == "contact"
  {
    AbsentFirstChar(lower, " ");
    AbsentFirstChar(lower, "for-");
  }

  lemma AboutUs(link: string)
    requires link == "About Us"
    ensures Href(link) == "/about-us"
  {
    LowerAboutUs(link);
    SlugAboutUs(ToLower(link));
    HrefOfLabel(link);
    SlashJoin("about-us", "/about-us");
  }

  lemma ForStudents(link: string)
    requires link == "For Students"
    ensures Href(link) == "/students"
  {
    LowerForStudents(link);
    SlugFor(ToLower(link), "students");
    HrefOfLabel(link);
    SlashJoin("students", "/students");
  }

  lemma ForCaretakers(link: string)
    requires link == "For Caretakers"
    ensures Href(link) == "/caretakers"
  {
    LowerForCaretakers(link);
    SlugFor(ToLower(link), "caretakers");
    HrefOfLabel(link);
    SlashJoin("caretakers", "/caretakers");
  }

  lemma Contact(link: string)
    requires link == "Contact"
    ensures Href(link) == "/contact"
  {
    LowerContact(link);
    SlugContact(ToLower(link));
    HrefOfLabel(link);
    SlashJoin("contact", "/contact");
  }

  /** The five Quick Links and their targets. */
  lemma QuickLinkHrefs(i: nat)
    requires i < |QuickLinks|
    ensures i == 0 ==> Href(QuickLinks[i]) == "/"
    ensures i == 1 ==> Href(QuickLinks[i]) == "/about-us"
    ensures i == 2 ==> Href(QuickLinks[i]) == "/students"
    ensures i == 3 ==> Href(QuickLinks[i]) == "/caretakers"
    ensures i == 4 ==> Href(QuickLinks[i]) == "/contact"
  {
    var link := QuickLinks[i];
    if i == 0 {
      assert link == "Home";
    } else if i == 1 {
      assert link == "About Us";
      AboutUs(link);
    } else if i == 2 {
      assert link == "For Students";
      ForStudents(link);
    } else if i == 3 {
      assert link == "For Caretakers";
      ForCaretakers(link);
    } else {
      assert link == "Contact";
      Contact(link);
    }
  }

  /** None of the five targets contains a space. */
  lemma TargetsHaveNoSpace(h: string)
    requires h == "/" || h == "/about-us" || h == "/students" || h == "/caretakers" || h == "/contact"
    ensures ' ' !in h
  {
  }

  /** No Quick Link's href contains a space. */
  lemma QuickLinkNoSpace(i: nat)
    requires i < |QuickLinks|
    ensures ' ' !in Href(QuickLinks[i])
  {
    QuickLinkHrefs(i);
    TargetsHaveNoSpace(Href(QuickLinks[i]));
  }
}
