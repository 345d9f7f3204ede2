/** The admin's list column for a post's text. */
module ContentAdmin {
  const PreviewLength: nat := 50

  /** PostAdmin.text_preview: text of up to 50 characters as it is, longer
      text cut to its first 50 characters followed by "...". */
  function TextPreview(text: string): (r: string)
    ensures |text| <= PreviewLength ==> r == text
    ensures |text| > PreviewLength ==> r == text[..PreviewLength] + "..."
    ensures |r| <= PreviewLength + 3
    ensures var n := if |text| < PreviewLength then |text| else PreviewLength;
      n <= |r| && r[..n] == text[..n]
  {
    if |text| > PreviewLength then text[..PreviewLength] + "..." else text
  }
}
