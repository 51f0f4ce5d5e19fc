/**
 * The model classes of test/active_token_test.rb:8-22 and the contents and tokens their
 * records get, stated for the model.
 */
module TokenExamples {
  import opened Wrappers
  import opened TokenSettings
  import opened TokenContents
  import opened TokenDigest
  import opened ArrayJoin

  const Salt: string := "Some neat Schopenhauer quote for the salt"

  /** `has_token :made_of => [salt, :username, :password]` */
  function UserConfig(): Config
  {
    HasToken(NoOptions.(madeOf := Some([Literal(Salt), Attr("username"), Attr("password")])), None)
  }

  function UserRecord(username: Option<string>): Attributes
  {
    map["username" := username, "password" := Some("unicorn"), "token" := None]
  }

  /**
   * The block of the secret documents: the title, "salt" and a million. Where Ruby would raise
   * for a nil or absent title, this block uses the empty string instead.
   */
  function DocumentBlock(record: Attributes): seq<string>
  {
    [(if "title" in record then record["title"].GetOr("") else "") + "salt" + "1000000"]
  }

  /** `has_token :field => :key, :digest => 'MD5', :rounds => 5, :update => true do ... end` */
  function DocumentConfig(): Config
  {
    HasToken(Options(Some("key"), None, None, Some("MD5"), Some(5), true), Some(DocumentBlock))
  }

  function InvitationBlock(record: Attributes): seq<string>
  {
    ["1", "2", "three"]
  }

  /** `has_token :made_of => [:id, :email, :created_at], :join_with => '---' do [1, 2, "three"] end` */
  function InvitationConfig(): Config
  {
    HasToken(NoOptions.(madeOf := Some([Attr("id"), Attr("email"), Attr("created_at")]), joinWith := Some("---")),
      Some(InvitationBlock))
  }

  /** The user's settings are the defaults apart from the sources. */
  lemma UserSettings()
    ensures UserConfig().field == "token" && UserConfig().glue == "///"
    ensures UserConfig().digest == "SHA1" && UserConfig().rounds == 2
  {
  }

  /** The document's settings take the given column, digest, rounds and update flag. */
  lemma DocumentSettings()
    ensures DocumentConfig().field == "key" && DocumentConfig().digest == "MD5"
    ensures DocumentConfig().rounds == 5 && DocumentConfig().updateOnChange
    ensures DocumentConfig().glue == "///" && DocumentConfig().madeOf == []
  {
  }

  /** Literals verbatim and symbols resolved, in declared order, glued by "///". */
  lemma UserContents()
    ensures CollectContents(UserConfig(), UserRecord(Some("rachel")))
      == Success(Salt + "///rachel///unicorn")
  {
    var record := UserRecord(Some("rachel"));
    CollectedSegments(UserConfig(), record);
    assert Segments(UserConfig(), record).value == [Salt, "rachel", "unicorn"];
    JoinThree(Salt, "rachel", "unicorn", "///");
    assert Join([Salt, "rachel", "unicorn"], "///") == Salt + "///" + "rachel" + "///" + "unicorn";
    assert "///" + "rachel" + "///" + "unicorn" == "///rachel///unicorn";
    assert Salt + "///" + "rachel" + "///" + "unicorn" == Salt + ("///" + "rachel" + "///" + "unicorn");
  }

  /** A nil username keeps its slot: two glues with nothing between them. */
  lemma UserContentsWithNilUsername()
    ensures CollectContents(UserConfig(), UserRecord(None)) == Success(Salt + "//////unicorn")
  {
    var record := UserRecord(None);
    CollectedSegments(UserConfig(), record);
    assert Segments(UserConfig(), record).value == [Salt, "", "unicorn"];
    JoinThree(Salt, "", "unicorn", "///");
    assert Join([Salt, "", "unicorn"], "///") == Salt + "///" + "" + "///" + "unicorn";
    assert "///" + "" + "///" + "unicorn" == "//////unicorn";
    assert Salt + "///" + "" + "///" + "unicorn" == Salt + ("///" + "" + "///" + "unicorn");
  }

  /** The user's token is the double SHA1 digest of the collected contents. */
  lemma UserToken(hexdigest: HexDigest)
    ensures Token(UserConfig(), UserRecord(Some("rachel")), hexdigest)
      == Success(hexdigest("SHA1", hexdigest("SHA1", Salt + "///rachel///unicorn")))
  {
    UserContents();
  }

  /** A block alone, returning one string: the contents are that string, with no glue. */
  lemma DocumentContents()
    ensures CollectContents(DocumentConfig(), map["title" := Some("On Androids and Electric Sheeps")])
      == Success("On Androids and Electric Sheepssalt1000000")
  {
    var record := map["title" := Some("On Androids and Electric Sheeps")];
    BlockAlone(DocumentConfig(), record);
    assert "On Androids and Electric Sheeps" + "salt" + "1000000" == "On Androids and Electric Sheepssalt1000000";
  }

  function InvitationRecord(): Attributes
  {
    map["id" := Some("123"), "email" := Some("alden@tyrell.corp"), "created_at" := Some("now")]
  }

  /** Sources first, then the block's array, one segment per element, all glued by "---". */
  lemma InvitationContents()
    ensures CollectContents(InvitationConfig(), InvitationRecord())
      == Success("123---alden@tyrell.corp---now---1---2---three")
  {
    InvitationResolved();
    InvitationBlockValues();
    BlockComesLast(InvitationConfig(), InvitationRecord());
    InvitationJoined();
  }

  lemma InvitationBlockValues()
    ensures InvitationConfig().glue == "---"
    ensures BlockValues(InvitationConfig(), InvitationRecord()) == ["1", "2", "three"]
  {
  }

  lemma InvitationJoined()
    ensures Join(["123", "alden@tyrell.corp", "now"], "---") + "---" + Join(["1", "2", "three"], "---")
      == "123---alden@tyrell.corp---now---1---2---three"
  {
    JoinThree("123", "alden@tyrell.corp", "now", "---");
    JoinThree("1", "2", "three", "---");
    assert "123" + "---" + "alden@tyrell.corp" + "---" + "now" == "123---alden@tyrell.corp---now";
    assert "1" + "---" + "2" + "---" + "three" == "1---2---three";
  }

  lemma InvitationResolved()
    ensures ResolveAll(InvitationConfig().madeOf, InvitationRecord())
      == Success(["123", "alden@tyrell.corp", "now"])
  {
    var record := InvitationRecord();
    var sources := [Attr("id"), Attr("email"), Attr("created_at")];
    assert InvitationConfig().madeOf == sources;
    assert record["id"] == Some("123");
    assert record["email"] == Some("alden@tyrell.corp");
    assert record["created_at"] == Some("now");
    assert forall i :: 0 <= i < 3 ==> Resolvable(sources[i], record);
    var r := ResolveAll(sources, record);
    assert r.value[0] == "123";
    assert r.value[1] == "alden@tyrell.corp";
    assert r.value[2] == "now";
    assert |r.value| == 3;
    assert r.value == ["123", "alden@tyrell.corp", "now"];
  }

  lemma JoinThree(a: string, b: string, c: string, glue: string)
    ensures Join([a, b, c], glue) == a + glue + b + glue + c
  {
    assert [a, b, c][1..] == [b, c];
    assert [b, c][1..] == [c];
    assert Join([c], glue) == c;
    assert Join([b, c], glue) == b + glue + c;
    assert Join([a, b, c], glue) == a + glue + (b + glue + c);
  }

  /** A source that names nothing the record answers makes collection fail with that name. */
  lemma UnknownNameFails()
    ensures CollectContents(UserConfig(), map["password" := Some("unicorn")])
      == Failure(NoSuchAttribute("username"))
  {
  }
}
