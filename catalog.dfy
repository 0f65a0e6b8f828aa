/** How the client's fallback persona catalog (`client/src/App.js`) lines
    up with the relay's persona table (`server/server.js`). */
module Catalog {
  import opened Protocol
  import Relay
  import Session

  /** The ids of a catalog, in its order. */
  function Ids(catalog: seq<DifficultyInfo>): (r: seq<string>)
    ensures |r| == |catalog|
    ensures forall i | 0 <= i < |catalog| :: r[i] == catalog[i].id
  {
    seq(|catalog|, i requires 0 <= i < |catalog| => catalog[i].id)
  }

  /** The relay's keys, in table order. */
  lemma ServerKeysListed()
    ensures Relay.ProfileKeys() == ["Открытый", "Малообщительный", "Грубый", "Незаинтересованный",
      "Закрытый", "Энтузиаст", "Философ", "Материалист"]
  {
  }

  /** The fallback ids, in catalog order: the second and third are swapped
      with respect to the relay's table. */
  lemma FallbackIdsListed()
    ensures Ids(Session.FallbackDifficulties) == ["Открытый", "Грубый", "Малообщительный", "Незаинтересованный",
      "Закрытый", "Энтузиаст", "Философ", "Материалист"]
  {
  }

  /** The fallback catalog offers exactly the relay's personas: the same
      set of ids, each once. */
  lemma FallbackIdsAreServerKeys()
    ensures |Session.FallbackDifficulties| == |Relay.DifficultyProfiles|
    ensures forall i | 0 <= i < |Session.FallbackDifficulties| ::
      Session.FallbackDifficulties[i].id in Relay.ProfileKeys()
    ensures forall k | k in Relay.ProfileKeys() :: k in Ids(Session.FallbackDifficulties)
    ensures forall i, j | 0 <= i < j < |Session.FallbackDifficulties| ::
      Session.FallbackDifficulties[i].id != Session.FallbackDifficulties[j].id
  {
    FallbackIdsCoverKeys();
    FallbackIdsDistinct();
  }

  lemma FallbackIdsCoverKeys()
    ensures |Session.FallbackDifficulties| == |Relay.DifficultyProfiles|
    ensures forall i | 0 <= i < |Session.FallbackDifficulties| ::
      Session.FallbackDifficulties[i].id in Relay.ProfileKeys()
    ensures forall k | k in Relay.ProfileKeys() :: k in Ids(Session.FallbackDifficulties)
  {
    var ids := Ids(Session.FallbackDifficulties);
    var keys := Relay.ProfileKeys();
    ServerKeysListed();
    FallbackIdsListed();
    assert ids == [keys[0], keys[2], keys[1], keys[3], keys[4], keys[5], keys[6], keys[7]];
  }

  lemma FallbackIdsDistinct()
    ensures forall i, j | 0 <= i < j < |Session.FallbackDifficulties| ::
      Session.FallbackDifficulties[i].id != Session.FallbackDifficulties[j].id
  {
    var ids := Ids(Session.FallbackDifficulties);
    var keys := Relay.ProfileKeys();
    ServerKeysListed();
    FallbackIdsListed();
    Relay.ProfilesWellFormed();
    assert ids == [keys[0], keys[2], keys[1], keys[3], keys[4], keys[5], keys[6], keys[7]];
  }

  /** Whichever fallback persona the user picks, the relay does not reject
      it as unsupported, neither as written nor with the corrected check. */
  lemma FallbackIdsAccepted(i: nat, history: Option<seq<Message>>,
                            generate: Relay.GenerationRequest -> Relay.GenOutcome)
    requires i < |Session.FallbackDifficulties|
    ensures Relay.HandleChat(ChatBody(history, Some(Session.FallbackDifficulties[i].id)), generate).status != 400
    ensures Relay.HandleChatAsWritten(ChatBody(history, Some(Session.FallbackDifficulties[i].id)), generate).status != 400
  {
    FallbackIdsAreServerKeys();
  }

  /** The client's initial persona is the relay's default, so a fresh
      session asks for the same persona whether or not it names it. */
  lemma InitialDifficultyIsDefault(history: Option<seq<Message>>,
                                   generate: Relay.GenerationRequest -> Relay.GenOutcome)
    ensures Relay.ResolveDifficulty(None) == Session.InitialDifficulty
    ensures Relay.HandleChat(ChatBody(history, Some(Session.InitialDifficulty)), generate) ==
      Relay.HandleChat(ChatBody(history, None), generate)
    ensures Relay.HandleChatAsWritten(ChatBody(history, Some(Session.InitialDifficulty)), generate) ==
      Relay.HandleChatAsWritten(ChatBody(history, None), generate)
  {
  }

  /** The fallback catalog is not the listing the relay serves: its order
      differs (the rude persona comes second), and no entry's description is
      the behaviour text the relay lists for the persona with that id. */
  lemma FallbackDiffersFromListing()
    ensures Session.FallbackDifficulties[1].id != Relay.ListDifficulties()[1].id
    ensures forall i, j | 0 <= i < |Session.FallbackDifficulties| && 0 <= j < |Relay.ListDifficulties()| &&
      Session.FallbackDifficulties[i].id == Relay.ListDifficulties()[j].id ::
      Session.FallbackDifficulties[i].description != Relay.ListDifficulties()[j].description
  {
    assert Session.FallbackDifficulties[1].id[0] != Relay.DifficultyProfiles[1].key[0];
  }
}
