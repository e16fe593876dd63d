/** The file names the encoding tests derive with main.py from CJK, mixed and punctuated creator names, proved. */
module EncodingExamples {
  import opened Wrappers
  import opened Text
  import opened Dates
  import LegacyNaming
  import NamingExamples
  import SanitizeExamples

  /** A name main.py's sanitiser has nothing to replace in. */
  predicate Unspaced(s: string)
  {
    forall i :: 0 <= i < |s| ==> s[i] != ' '
  }

  /** main.py keeps a name with no space as it is in the file name. */
  lemma UnspacedFilename(date: string, d: string, creator: string, id: string, name: string)
    requires LegacyNaming.FormatDate(date) == Ok(d) && Unspaced(creator)
    requires name == d + "_" + creator + "_" + id + ".txt"
    ensures LegacyNaming.SanitizeCreatorName(creator) == creator
    ensures LegacyNaming.GenerateFilename(date, creator, id) == Ok(name)
  {
    ReplaceSpacesKeeps(creator);
  }

  /** main.py replaces a space before an unspaced word by an underscore and keeps the word. */
  lemma {:induction false} SpaceThenWord(a: string, b: string)
    requires Unspaced(b)
    ensures LegacyNaming.SanitizeCreatorName(a + " " + b) == LegacyNaming.SanitizeCreatorName(a) + "_" + b
  {
    ReplaceSpacesKeeps(b);
    ReplaceSpacesAppend(a + " ", b);
    ReplaceSpacesAppend(a, " ");
    assert " "[1..] == [];
  }

  /** Three unspaced words with single spaces between them come out joined by underscores. */
  lemma ThreeWords(a: string, b: string, c: string)
    requires Unspaced(a) && Unspaced(b) && Unspaced(c)
    ensures LegacyNaming.SanitizeCreatorName(a + " " + b + " " + c) == a + "_" + b + "_" + c
  {
    ReplaceSpacesKeeps(a);
    SpaceThenWord(a, b);
    SpaceThenWord(a + " " + b, c);
  }

  lemma RendersJanuary1()
    ensures ValidDate(Date(1, 1, 2026)) && Render(Date(1, 1, 2026)) == "01012026" && Pad4(2026) == "2026"
  {
    NamingExamples.RenderDigits(Date(1, 1, 2026), 0, 1, 0, 1, 2, 0, 2, 6);
  }

  lemma RendersDecember31()
    ensures ValidDate(Date(12, 31, 2025)) && Render(Date(12, 31, 2025)) == "12312025" && Pad4(2025) == "2025"
  {
    NamingExamples.RenderDigits(Date(12, 31, 2025), 1, 2, 3, 1, 2, 0, 2, 5);
  }

  lemma RendersNovember11()
    ensures ValidDate(Date(11, 11, 2025)) && Render(Date(11, 11, 2025)) == "11112025" && Pad4(2025) == "2025"
  {
    NamingExamples.RenderDigits(Date(11, 11, 2025), 1, 1, 1, 1, 2, 0, 2, 5);
  }

  /** The date the encoding tests use most: "01-08-2026" becomes "01082026". */
  lemma January8()
    ensures LegacyNaming.FormatDate("01" + "-" + "08" + "-" + "2026") == Ok("01082026")
  {
    NamingExamples.RendersJanuary8();
    NamingExamples.FormatsAs("01", "08", "2026", Date(1, 8, 2026), "01082026");
  }

  lemma December19()
    ensures LegacyNaming.FormatDate("12" + "-" + "19" + "-" + "2025") == Ok("12192025")
  {
    NamingExamples.RendersDecember19();
    NamingExamples.FormatsAs("12", "19", "2025", Date(12, 19, 2025), "12192025");
  }

  lemma January1()
    ensures LegacyNaming.FormatDate("01" + "-" + "01" + "-" + "2026") == Ok("01012026")
  {
    RendersJanuary1();
    NamingExamples.FormatsAs("01", "01", "2026", Date(1, 1, 2026), "01012026");
  }

  lemma December31()
    ensures LegacyNaming.FormatDate("12" + "-" + "31" + "-" + "2025") == Ok("12312025")
  {
    RendersDecember31();
    NamingExamples.FormatsAs("12", "31", "2025", Date(12, 31, 2025), "12312025");
  }

  lemma November11()
    ensures LegacyNaming.FormatDate("11" + "-" + "11" + "-" + "2025") == Ok("11112025")
  {
    RendersNovember11();
    NamingExamples.FormatsAs("11", "11", "2025", Date(11, 11, 2025), "11112025");
  }

  /** An unspaced creator's video "test123" of 01-08-2026 keeps the name whole in its file name. */
  lemma Test123Unspaced(creator: string, name: string)
    requires Unspaced(creator) && name == "01082026" + "_" + creator + "_" + "test123" + ".txt"
    ensures LegacyNaming.SanitizeCreatorName(creator) == creator
    ensures LegacyNaming.GenerateFilename("01" + "-" + "08" + "-" + "2026", creator, "test123") == Ok(name)
  {
    January8();
    UnspacedFilename("01" + "-" + "08" + "-" + "2026", "01082026", creator, "test123", name);
  }

  /** A spaced creator's video "test123" of 01-08-2026 is named with the spaces replaced. */
  lemma Test123Spaced(creator: string, c: string, name: string)
    requires LegacyNaming.SanitizeCreatorName(creator) == c && name == "01082026" + "_" + c + "_" + "test123" + ".txt"
    ensures LegacyNaming.GenerateFilename("01" + "-" + "08" + "-" + "2026", creator, "test123") == Ok(name)
  {
    January8();
    NamingExamples.LegacyFilenameOf("01" + "-" + "08" + "-" + "2026", creator, "test123", "01082026", c);
  }

  lemma UnspacedCreators()
    ensures Unspaced("海伦子Hellen") && Unspaced("中文频道") && Unspaced("纯中文频道名称")
    ensures Unspaced("English") && Unspaced("Channel") && Unspaced("中文")
    ensures Unspaced("Pure") && Unspaced("English") && Unspaced("Channel")
  {
  }

  lemma ExpectedHellen()
    ensures "01082026" + "_" + "海伦子Hellen" + "_" + "test123" + ".txt" == "01082026_海伦子Hellen_test123.txt"
  {
  }

  lemma ExpectedMoney()
    ensures "01082026" + "_" + "Money_or_Life_美股频道" + "_" + "test123" + ".txt" == "01082026_Money_or_Life_美股频道_test123.txt"
  {
  }

  lemma ExpectedChannel()
    ensures "01082026" + "_" + "中文频道" + "_" + "test123" + ".txt" == "01082026_中文频道_test123.txt"
  {
  }

  lemma ExpectedEnglish1()
    ensures "English" + "_" + "Channel" + "_" + "中文" == "English_Channel_中文"
  {
  }

  lemma ExpectedEnglish2()
    ensures "01082026" + "_" + "English_Channel_中文" + "_" + "test123" + ".txt" == "01082026_English_Channel_中文_test123.txt"
  {
  }

  /**
   * The four creators of test_chinese_creator_name_in_filename keep their CJK
   * characters and get their spaces replaced: each name starts with "01082026_",
   * holds `creator.replace(" ", "_")` and ends with "_test123.txt".
   */
  lemma ChineseCreatorNames()
    ensures LegacyNaming.GenerateFilename("01" + "-" + "08" + "-" + "2026", "海伦子Hellen", "test123") ==
      Ok("01082026_海伦子Hellen_test123.txt")
    ensures LegacyNaming.GenerateFilename("01" + "-" + "08" + "-" + "2026", "Money" + " " + "or" + " " + "Life" + " " + "美股频道", "test123") ==
      Ok("01082026_Money_or_Life_美股频道_test123.txt")
    ensures LegacyNaming.GenerateFilename("01" + "-" + "08" + "-" + "2026", "中文频道", "test123") ==
      Ok("01082026_中文频道_test123.txt")
    ensures LegacyNaming.GenerateFilename("01" + "-" + "08" + "-" + "2026", "English" + " " + "Channel" + " " + "中文", "test123") ==
      Ok("01082026_English_Channel_中文_test123.txt")
  {
    UnspacedCreators();
    ExpectedHellen();
    Test123Unspaced("海伦子Hellen", "01082026_海伦子Hellen_test123.txt");
    SanitizeExamples.SanitizeSpacedWords();
    ExpectedMoney();
    Test123Spaced("Money" + " " + "or" + " " + "Life" + " " + "美股频道", "Money_or_Life_美股频道", "01082026_Money_or_Life_美股频道_test123.txt");
    ExpectedChannel();
    Test123Unspaced("中文频道", "01082026_中文频道_test123.txt");
    ThreeWords("English", "Channel", "中文");
    ExpectedEnglish1();
    ExpectedEnglish2();
    Test123Spaced("English" + " " + "Channel" + " " + "中文", "English_Channel_中文", "01082026_English_Channel_中文_test123.txt");
  }

  lemma ExpectedTranscript()
    ensures "12192025" + "_" + "海伦子Hellen" + "_" + "test_video" + ".txt" == "12192025_海伦子Hellen_test_video.txt"
  {
  }

  /** The transcript test's file name for "海伦子Hellen"'s video "test_video" of 12-19-2025 keeps the CJK name. */
  lemma TranscriptFilename()
    ensures LegacyNaming.GenerateFilename("12" + "-" + "19" + "-" + "2025", "海伦子Hellen", "test_video") ==
      Ok("12192025_海伦子Hellen_test_video.txt")
  {
    December19();
    UnspacedCreators();
    ExpectedTranscript();
    UnspacedFilename("12" + "-" + "19" + "-" + "2025", "12192025", "海伦子Hellen", "test_video", "12192025_海伦子Hellen_test_video.txt");
  }

  lemma UnspacedPunctuation()
    ensures Unspaced("上市即巅峰?解析不同阶段") && Unspaced("焦虑—太空物流") && Unspaced("100%成功率")
    ensures Unspaced("《星际探索》") && Unspaced("【重要】通知") && Unspaced("价格：$100")
  {
  }

  lemma ExpectedPunctuation1()
    ensures "01082026" + "_" + "上市即巅峰?解析不同阶段" + "_" + "test123" + ".txt" == "01082026_上市即巅峰?解析不同阶段_test123.txt"
  {
  }

  lemma ExpectedPunctuation2()
    ensures "01082026" + "_" + "焦虑—太空物流" + "_" + "test123" + ".txt" == "01082026_焦虑—太空物流_test123.txt"
  {
  }

  lemma ExpectedPunctuation3()
    ensures "01082026" + "_" + "100%成功率" + "_" + "test123" + ".txt" == "01082026_100%成功率_test123.txt"
  {
  }

  lemma ExpectedBrackets1()
    ensures "01082026" + "_" + "《星际探索》" + "_" + "test123" + ".txt" == "01082026_《星际探索》_test123.txt"
  {
  }

  lemma ExpectedBrackets2()
    ensures "01082026" + "_" + "【重要】通知" + "_" + "test123" + ".txt" == "01082026_【重要】通知_test123.txt"
  {
  }

  lemma ExpectedBrackets3()
    ensures "01082026" + "_" + "价格：$100" + "_" + "test123" + ".txt" == "01082026_价格：$100_test123.txt"
  {
  }

  /**
   * The six names with CJK punctuation have no space, so main.py keeps each one
   * whole: the sanitised name is the name itself (never empty), and the file
   * name holds "01082026" and "test123.txt".
   */
  lemma PunctuationNames()
    ensures LegacyNaming.SanitizeCreatorName("上市即巅峰?解析不同阶段") == "上市即巅峰?解析不同阶段"
    ensures LegacyNaming.GenerateFilename("01" + "-" + "08" + "-" + "2026", "上市即巅峰?解析不同阶段", "test123") ==
      Ok("01082026_上市即巅峰?解析不同阶段_test123.txt")
    ensures LegacyNaming.SanitizeCreatorName("焦虑—太空物流") == "焦虑—太空物流"
    ensures LegacyNaming.GenerateFilename("01" + "-" + "08" + "-" + "2026", "焦虑—太空物流", "test123") ==
      Ok("01082026_焦虑—太空物流_test123.txt")
    ensures LegacyNaming.SanitizeCreatorName("100%成功率") == "100%成功率"
    ensures LegacyNaming.GenerateFilename("01" + "-" + "08" + "-" + "2026", "100%成功率", "test123") ==
      Ok("01082026_100%成功率_test123.txt")
    ensures LegacyNaming.SanitizeCreatorName("《星际探索》") == "《星际探索》"
    ensures LegacyNaming.GenerateFilename("01" + "-" + "08" + "-" + "2026", "《星际探索》", "test123") ==
      Ok("01082026_《星际探索》_test123.txt")
    ensures LegacyNaming.SanitizeCreatorName("【重要】通知") == "【重要】通知"
    ensures LegacyNaming.GenerateFilename("01" + "-" + "08" + "-" + "2026", "【重要】通知", "test123") ==
      Ok("01082026_【重要】通知_test123.txt")
    ensures LegacyNaming.SanitizeCreatorName("价格：$100") == "价格：$100"
    ensures LegacyNaming.GenerateFilename("01" + "-" + "08" + "-" + "2026", "价格：$100", "test123") ==
      Ok("01082026_价格：$100_test123.txt")
  {
    UnspacedPunctuation();
    ExpectedPunctuation1();
    ExpectedPunctuation2();
    ExpectedPunctuation3();
    ExpectedBrackets1();
    ExpectedBrackets2();
    ExpectedBrackets3();
    Test123Unspaced("上市即巅峰?解析不同阶段", "01082026_上市即巅峰?解析不同阶段_test123.txt");
    Test123Unspaced("焦虑—太空物流", "01082026_焦虑—太空物流_test123.txt");
    Test123Unspaced("100%成功率", "01082026_100%成功率_test123.txt");
    Test123Unspaced("《星际探索》", "01082026_《星际探索》_test123.txt");
    Test123Unspaced("【重要】通知", "01082026_【重要】通知_test123.txt");
    Test123Unspaced("价格：$100", "01082026_价格：$100_test123.txt");
  }

  lemma ExpectedFileSystem1()
    ensures "01012026" + "_" + "纯中文频道名称" + "_" + "abc123" + ".txt" == "01012026_纯中文频道名称_abc123.txt"
  {
  }

  lemma ExpectedFileSystem2()
    ensures "Pure" + "_" + "English" + "_" + "Channel" == "Pure_English_Channel"
  {
  }

  lemma ExpectedFileSystem3()
    ensures "12312025" + "_" + "Pure_English_Channel" + "_" + "xyz789" + ".txt" == "12312025_Pure_English_Channel_xyz789.txt"
  {
  }

  /** The four (creator, date, id) triples of the file-system test and the names main.py gives them. */
  lemma FileSystemNames()
    ensures LegacyNaming.GenerateFilename("12" + "-" + "19" + "-" + "2025", "海伦子" + "Hellen", "inXOHNc_UUo") ==
      Ok("12192025_海伦子Hellen_inXOHNc_UUo.txt")
    ensures LegacyNaming.GenerateFilename("06" + "-" + "14" + "-" + "2025", "Money" + " " + "or" + " " + "Life" + " " + "美股频道", "t7XX6-pon8M") ==
      Ok("06142025_Money_or_Life_美股频道_t7XX6-pon8M.txt")
    ensures LegacyNaming.GenerateFilename("01" + "-" + "01" + "-" + "2026", "纯中文频道名称", "abc123") ==
      Ok("01012026_纯中文频道名称_abc123.txt")
    ensures LegacyNaming.GenerateFilename("12" + "-" + "31" + "-" + "2025", "Pure" + " " + "English" + " " + "Channel", "xyz789") ==
      Ok("12312025_Pure_English_Channel_xyz789.txt")
  {
    NamingExamples.LegacyFilenameChinese();
    NamingExamples.LegacyFilenameWords();
    UnspacedCreators();
    ExpectedFileSystem1();
    ExpectedFileSystem2();
    ExpectedFileSystem3();
    January1();
    UnspacedFilename("01" + "-" + "01" + "-" + "2026", "01012026", "纯中文频道名称", "abc123", "01012026_纯中文频道名称_abc123.txt");
    December31();
    ThreeWords("Pure", "English", "Channel");
    NamingExamples.LegacyFilenameOf("12" + "-" + "31" + "-" + "2025", "Pure" + " " + "English" + " " + "Channel", "xyz789",
      "12312025", "Pure_English_Channel");
  }

  lemma ExpectedEndToEnd()
    ensures "11112025" + "_" + "海伦子Hellen" + "_" + "73cdsu6TrbI" + ".txt" == "11112025_海伦子Hellen_73cdsu6TrbI.txt"
  {
  }

  /** The end-to-end test's video "73cdsu6TrbI" of 11-11-2025 by "海伦子Hellen". */
  lemma EndToEndFilename()
    ensures LegacyNaming.GenerateFilename("11" + "-" + "11" + "-" + "2025", "海伦子Hellen", "73cdsu6TrbI") ==
      Ok("11112025_海伦子Hellen_73cdsu6TrbI.txt")
  {
    November11();
    UnspacedCreators();
    ExpectedEndToEnd();
    UnspacedFilename("11" + "-" + "11" + "-" + "2025", "11112025", "海伦子Hellen", "73cdsu6TrbI", "11112025_海伦子Hellen_73cdsu6TrbI.txt");
  }
}
