# esec-vault, modelled and proved in Dafny

esec-vault keeps private keys for projects on many devices and on a server that is not trusted with them.
This project models the parts where that is hard, and proves what the program relies on:

- **The signed device chain** (`Envelopes`, `DeviceChain`, `ChainEffects`, `Machine`, `ChainHistory`,
  `ChainInvariants`, `Revocation`). `DeviceChain.Step` and `Replay` say what an accepted link does; `Machine.State` is the
  verifier with fields updated in place, each method tied to that specification. On top: no server can forge
  history, a pinned head fixes everything before it, the historical lookups agree with replay, and what every
  reachable chain keeps.
- **The replicated key vault** (`KeyVault`, `Names`, `CatalogJoin`, `Inventory`, `KeyMerge`, `Account`,
  `AccountSync`, `VaultSystem`, `Convergence`, with `InventoryEffects`, `MergeEffects`, `AccountEffects`, `SystemEffects`). Keyrings, catalogs of versioned events and tombstones, the
  three-way merge, the inventory a device uploads, and the sync that does it. `Account` is the specification
  of one device; `AccountSync.Account` is the same device with fields updated step by step and a retry loop;
  `VaultSystem` is any number of devices around one compare-and-swap register, in any interleaving, with stale
  reads, lost answers, lost files and any local edits.
- **The archive** (`Archive`, `ArchiveShelf`, `ArchiveMerge`, `Uploads`, with `ArchiveEffects`, `UploadsEffects`). Immutable encrypted file revisions,
  captures linked by their ids, restore, what merging copies of an archive does to their numbers, and the way
  objects travel from a device's disk to the server.
- **Keys granted by a project** (`EnvNames`, `ImportKeys`).
- **The broker session** (`Broker`, with `BrokerEffects`): epochs, expiry callbacks, approval channels and reads as atomic steps in
  any order, and the server whose methods take them.
- **Witnesses** (`Witnesses`): values that meet the hypotheses about ideal functions, chains, checkouts, keyrings,
  vaults, devices and imports, so that no result above holds of nothing, and the failing inputs named below.

A specification function is not the last word on what it means. The `Effects` modules, and the lemmas named `Exactly`,
say of each operation when it is accepted, what is different afterwards and what is not: of the single ones by names,
values and fields alone, of the composed ones by the operations they must come to and in which case. The methods and
the laws over runs rest on the same functions.

Conventions. What the program computes with hashes, signatures and ciphers is done by ideal functions handed to
the model (`Crypto`, `DeviceChain.Ideal`, `Archive.Ideal`); what is hashed and signed is modelled as text and
proved unambiguous. Errors are `Result` values. A method that updates fields in place states its whole new
state as a function of the old one; what the program promises is then proved of that function. A Go map ranged
over in no particular order is a loop that picks an arbitrary remaining key, or an `order` argument that any
enumeration may fill. Names of keyring entries are parsed (`KeyVault.Name`); `Names` shows that parsing loses
nothing. Times are integers; counts, versions and generations are unbounded.

Where the code does something its comments do not say, or deny, the code is followed:

- A failed `step` is said to leave the chain state possibly half changed; every path in fact returns before it
  changes anything, and `Machine.State.Step` states that.
- `applyDeleted` deletes from the map it is ranging over. That the order does not show is not so for every
  catalog: `KeyVault.SweepOrderMatters` gives the exact condition, and `KeyVault.SweepOrderIndependent` shows
  that catalogs whose alias events are about alias names, the only ones the program writes, meet it.
- A capture of a checkout with no files is recorded but refused by restore; `Archive.CaptureThenRestore` states
  both. A checkout always has its `esec.toml`, so this does not arise from `collectCheckout`.
- A capture follows the latest one its device knows, which is not always the latest there is: a device that lost
  its base numbers a checkout from one again, and when the archives are merged two captures share a number.
  `ArchiveMerge.NumberedExactly` says over any run when that happens, and `ArchiveMerge.LostBaseMerges` how. When
  the checkout still has a file as it was, the merge is refused instead, and every later one too
  (`ArchiveMerge.LostBaseRefused`, `ArchiveMerge.StillRefused`).
- A fetch may show any version not older than the one applied. A device that read a newer one to change a key has
  revisions pending whose objects are not on its disk, and shown an older version it cannot upload them:
  `Uploads.MissingExactly` is the condition and `Uploads.StaleFetchMisses` such a run.
- An environment may be called like a public key, and its entry is then that key's record. Importing another key
  there is refused or files a key wrongly: `ImportKeys.GrantExactly` says when and
  `ImportKeys.ImportsFineExactly` that no other environments misbehave.
- The comment on `importKeys` has a replaced key stay under its public key. It may not, and the key may be gone: when
  one environment gives it up, and a later one, called like that key, gives it up again.
  `ImportKeys.ImportLosesKey` is the import, `ImportKeys.LostExactly` the exact condition on the project, and
  `ImportKeys.SafeKeysStay` says that keys filed or guarded before are safe from it.
- A keyring that holds another key under a key's record, which such an import or an editor can write, can cost the
  account that key: `Inventory.MisfiledLosesKey`. `VaultSystem.NoKeyLost` asks only that this one record was left
  alone, and `VaultSystem.TombstonesHold` asks nothing.
- Merging the same vault again can still change something when the vault files a key under another key's record:
  `KeyMerge.MergeIdempotent` says exactly when, and `KeyMerge.MergeAgainConflicts` is such a vault.
- A read that is not consent-enabled makes no epoch check at the end, and the expiry of a session is not a
  change of epoch: `Broker.ServedIffUndisturbed` says exactly which reads return.

## Model

| member | source | states |
|---|---|---|
| Envelopes.MessageInjective | internal/envelope/envelope.go:63-75 | the signed message determines kind and body: a signature for one kind of envelope is never one for another |
| Envelopes.HashDeterminesMessage | internal/envelope/envelope.go:195-198 | under an injective digest, envelopes with one hash carry the same kind and body, whatever their signatures |
| Envelopes.CountersigningKeepsHash | internal/envelope/envelope.go:136-198 | adding a signature changes neither the hash a chain refers to nor any signature already there |
| Envelopes.CheckExactly | internal/envelope/envelope.go:63-135 | which envelopes pass the structural check: version, kind, and the limits on body and signatures |
| Envelopes.RequireExactly | internal/envelope/envelope.go:136-198 | a signature check passes exactly when there is a key to check and every one of them signed the kind and body |
| ChainEffects.HeaderExactly | internal/chain/chain.go:530-567 | which links have a good header: well formed, the user's, next in sequence, pointing at the last hash, timed, and no day older than the last |
| ChainEffects.InitStep | internal/chain/chain.go:569-602 | exactly when a first link is accepted, and that it sets the four keys, version 1 and the first epoch and nothing else |
| ChainEffects.DeviceAddStep | internal/chain/chain.go:687-732 | exactly when a device is accepted: unused id and keys, its own proof for this user, and a way to join that is open; it is then active, with how it joined and when |
| ChainEffects.DeviceRevokeStep | internal/chain/chain.go:623-640 | exactly an active device can be revoked; it is inactive from this link on and nothing else changes |
| ChainEffects.DeviceRenameStep | internal/chain/chain.go:640-654 | exactly an active device can be renamed; its name is the new one and nothing else changes |
| ChainEffects.SlotAddStep | internal/chain/chain.go:655-672 | exactly an unused slot id with an expiry within 366 days is accepted; the slot is active under the current key version with its fingerprint and expiry |
| ChainEffects.SlotRemoveStep | internal/chain/chain.go:672-685 | exactly an active slot can be removed; it is inactive and nothing else changes |
| ChainEffects.DelegateAddStep | internal/chain/delegate.go:181-214 | exactly an eligible delegate with an unused id, no active twin and fewer than 20 active is accepted; it is active from this link on |
| ChainEffects.DelegateRemoveStep | internal/chain/delegate.go:216-227 | exactly an active delegate can be removed; it is inactive, its removal position is recorded, and nothing else changes |
| ChainEffects.SecurityKeyAddStep | internal/chain/securitykey.go:106-131 | exactly a new id and a new recipient, with fewer than 20 active, are accepted; the key is active with its time and position |
| ChainEffects.SecurityKeyRemoveStep | internal/chain/securitykey.go:133-144 | exactly an active security key can be removed; it is inactive, its removal position is recorded, and nothing else changes |
| ChainEffects.RotateAccepted | internal/chain/chain.go:734-764 | exactly when a rotation is accepted: next version, both keys new, signed by the old key and the new, a list of active devices each once |
| ChainEffects.RotateEffect | internal/chain/chain.go:764-784 | everything a rotation changes, device by device, slot by slot and delegate by delegate, and what it leaves |
| ChainEffects.VerifiesExactly | internal/chain/chain.go:413-428 | a chain verifies exactly when the user id is valid, it has at most 10000 links, and each is accepted by the state the ones before it reach |
| ChainEffects.OthersRefused | internal/chain/chain.go:604-622 | a second first link and a link of an unknown type are refused |
| ChainHistory.ReplayRecord | internal/chain/chain.go:530-567 | an accepted chain's link i has sequence number i + 1, names the hash of the link before it, and is recorded as decoded |
| ChainHistory.PrefixRecord | internal/chain/chain.go:413-428 | the record of a prefix is the prefix of the record |
| ChainHistory.NoForgedHistory | internal/chain/chain.go:413-428 | if only the honest chain's own links verify under its user keys, every chain that verifies from the same first link is an initial part of it and replays to the state it had then |
| ChainHistory.WithholdingVerifies | internal/chain/chain.go:7-10 | withholding links is always possible: every initial part of a chain that verifies, verifies |
| ChainHistory.SameMessagesSameState | internal/chain/chain.go:530-567 | signatures decide whether a chain is accepted, never which state it reaches |
| ChainHistory.CurrentKeyIsAnEpoch | internal/chain/chain.go:232-252 | the key current after any prefix of a chain is on record as one of its epochs |
| ChainHistory.HeadFixesHistory | internal/chain/chain.go:457-468 | two accepted chains with one hash at a position carry the same messages and states up to it |
| ChainHistory.PinsGivePrefixes | internal/account/state.go:114-125 | over any run of verified and pinned chains, each later accepted chain extends each earlier pinned one and passed through its state |
| ChainInvariants.ChangeEvolves | internal/chain/chain.go:569-784 | what one link of any type may do to devices, slots, delegates, security keys and epochs, and nothing else |
| ChainInvariants.ReachableHygiene | internal/chain/chain.go:655-784 | on every accepted chain: versions 1..n at rising positions, the last one current; active slots name the current version; active delegates follow the latest rotation, at most 20, one server, distinct passkeys |
| ChainInvariants.ApprovalPath | internal/chain/chain.go:687-732 | following approved_by strictly decreases added_seq and ends at a device added as first, by recovery or by an SSH agent |
| ChainInvariants.ApproverWasActive | internal/chain/chain.go:700-722 | whoever approved a device was active just before it joined, and an agent slot was usable then |
| ChainInvariants.DeviceHistory | internal/chain/chain.go:604-654 | a device was active after n links exactly when it was added by then and not yet revoked; a revoked one is never active again |
| ChainInvariants.IdentitiesForever | internal/chain/securitykey.go:106-144 | device ids and encoded keys, delegate ids, and security key ids and recipients keep their first meaning for ever, even after removal |
| ChainInvariants.EpochAtIsReplay | internal/chain/chain.go:232-252 | EpochAt(n) answers exactly for 1..Seq, with the version and keys current after replaying n links |
| ChainInvariants.DelegateAtIsReplay | internal/chain/delegate.go:229-237 | DelegateAt(id, n) succeeds exactly when that delegate is active after replaying n links, across removals and rotations |
| Machine.State.Step | internal/chain/chain.go:528-567 | one link in place: the fields become what the specification says, or nothing changes and the error is its error |
| Machine.State.Next | internal/chain/chain.go:518-526 | the same on a copy; the original state keeps every field |
| Machine.State.ApplyDeviceAdd | internal/chain/chain.go:687-732 | the device map gains exactly the device the specification adds, under the same refusals |
| Machine.State.ApplyRotate | internal/chain/chain.go:734-784 | devices not kept are revoked, every slot and delegate ends, and the key and its epoch change, as specified |
| Machine.State.ApplyDelegateAdd | internal/chain/delegate.go:181-214 | the loop that counts and compares active delegates refuses exactly the duplicates and the surplus |
| Machine.State.ApplyDelegateRemove | internal/chain/delegate.go:216-227 | the delegate is ended where it stands; an unknown or inactive one is refused |
| Machine.State.ApplySecurityKeyAdd | internal/chain/securitykey.go:106-131 | the loop over security keys refuses exactly a reused id or recipient and the surplus |
| Machine.State.ApplySecurityKeyRemove | internal/chain/securitykey.go:133-144 | the key is ended and its record kept |
| Machine.State.EpochAt | internal/chain/chain.go:232-244 | the backward loop finds the latest epoch at or before a position |
| Machine.Verify | internal/chain/chain.go:413-428 | folding the links in place accepts exactly the chains the specification accepts, with its final state |
| Revocation.ActiveDevices | internal/chain/chain.go:470-480 | the active device ids, each once, in sorted order |
| Revocation.RevokeStep | internal/chain/chain.go:623-640 | an accepted device_revoke takes exactly its target out of the active set and changes nothing else |
| Revocation.RotateStep | internal/chain/chain.go:734-784 | after an accepted ukey_rotate the active devices are the listed ones, and no slot or delegate is active |
| Revocation.Rotate | internal/account/devices.go:247-285 | when it succeeds the new key is boxed once for each active device and for no other; it succeeds whenever clock, keys and signatures are in order |
| Revocation.Revoke | internal/account/devices.go:162-199 | after its two links the active set is the old one minus the target, the target gets no box, no slot or delegate stays; a device cannot revoke itself |
| Names.RenderParse | internal/keystore/entries.go:11-63 | parsing an entry name loses nothing: no two texts are one name |
| Names.EntriesDeterminePub | internal/keystore/entries.go:43-52 | the entry that files a key and the entry that holds it guarded determine the public key |
| Names.KindsByText | internal/account/inventory.go:337-339 | the parsed kinds are those the program tells apart by prefixes and patterns: keys, key records, guarded entries, aliases, the guard's own |
| Names.WritableByText | internal/account/sync.go:61-62 | the names a vault may write into a keyring are those of the program's pattern |
| KeyVault.SweepOrderIndependent | internal/account/inventory.go:307-335 | with alias events about alias names only, visiting and deleting in any order leaves the entries a simultaneous judgement leaves |
| KeyVault.SweepOrderMatters | internal/account/inventory.go:307-335 | the outcome is the same for all orders if and only if no clear key is guarded solely by an entry that itself goes |
| KeyVault.SurvivorsIdempotent | internal/account/inventory.go:307-335 | sweeping again finds nothing more |
| KeyVault.LeftExactly | internal/account/inventory.go:307-335 | by names and values, exactly which entries a sweep leaves: guarded entries, environments' guards, private keys under any name, and other text |
| KeyVault.TombstonedGone | internal/account/inventory.go:307-335 | after a sweep nothing is left of a tombstoned key: no guarded form, no copy under any name, no environment's guard naming it |
| KeyVault.RetiredKeepsRecords | internal/account/inventory.go:307-335 | a retired key loses every alias and keeps its record and its guarded form |
| KeyVault.GuardedLosesClear | internal/account/inventory.go:307-335 | of a key marked guarded, or guarded here, no clear name is left |
| KeyVault.Keyring.ApplyDeleted | internal/account/inventory.go:307-335 | the loop that deletes while ranging ends in the sweep for the order it took, hence in the order-free outcome |
| CatalogJoin.GatherJoins | internal/account/inventory.go:410-447 | folding sources gives the greatest event for every record, the union of tombstones, retirements and revisions, and fails exactly when two sources disagree on a revision |
| CatalogJoin.MergeIsJoin | internal/account/inventory.go:345-447 | the same sources in any order and with any repetition give the same catalog and the same refusal |
| Inventory.SourcesInAnyOrder | internal/account/inventory.go:95-107 | the catalog gathered from base, pending revision and server does not depend on their order or on repetition, nor does the immutable-revision error |
| Inventory.CollectPreserves | internal/account/inventory.go:93-154 | whatever base, pending revision and keyrings a device brings, what it collects over the server's vault keeps its catalog, holds nothing tombstoned, and loses no key without a reason on record, if all sources hold that key under its record |
| Inventory.MisfiledLosesKey | internal/account/inventory.go:307-335 | a keyring with another, guarded key under a key's record makes the collection lose that key without a reason |
| Inventory.CollectExtendsPending | internal/account/inventory.go:95-154 | no staged change is forgotten: the collected catalog extends the pending one |
| Inventory.CollectHoldsKey | internal/account/inventory.go:95-154 | a key on record in the keyring, the base, the pending revision or the server's vault is in what is collected, unless tombstoned or guarded |
| InventoryEffects.EntriesByRank | internal/account/inventory.go:95-131 | an entry counts as the keyring has it, else the server, else the pending revision, else the base |
| InventoryEffects.EditsExactly | internal/account/inventory.go:117-131 | exactly which alias edits a device records since its previous revision, and at which version |
| InventoryEffects.CatalogCollected | internal/account/inventory.go:95-131 | the collected catalog is the sources' with the edits since the pending revision, or the base, laid over its alias events |
| InventoryEffects.SweptCollected | internal/account/inventory.go:131-154 | what is collected is what was assembled, each project swept |
| Inventory.CollectOk | internal/account/inventory.go:95-154 | a collection of well-formed sources is well formed |
| Inventory.SweepKeepsKey | internal/account/inventory.go:307-335 | a key's record survives the sweep unless it is tombstoned, marked guarded, or held in its guarded form |
| Inventory.Draft.AddSource | internal/account/inventory.go:410-447 | merging one source in place equals overlaying its entries and joining its catalog, with the immutable-revision errors |
| Inventory.Draft.AddLocal | internal/account/inventory.go:108-131 | laying keyrings over the draft and recording alias edits gives exactly the edits since the previous revision |
| Inventory.CollectInventory | internal/account/inventory.go:95-154 | the whole construction, step by step, equals its specification |
| KeyMerge.ThreeWay | internal/account/sync.go:403-414 | on a name both sides hold: server-only changes are taken, local ones kept, and exactly the names changed on both sides to different values are reported and left alone |
| KeyMerge.OneSided | internal/account/sync.go:412-414 | a name only here stays; a name only there comes, unless either side keeps its key guarded |
| KeyMerge.GuardThreeWay | internal/account/sync.go:527-555 | the guard's three entries: a change made only on the server comes, one made only here stays, two different ones or another recipient stay as here and are reported, and a side without a guard takes or gives none |
| KeyMerge.AskedNames | internal/account/sync.go:452-509 | a person asked decides exactly the names that would be reported, and none of them is |
| KeyMerge.AskedGuard | internal/account/sync.go:527-555 | and whether the server's guard comes where both changed it; another recipient stays a conflict |
| KeyMerge.MergeKeeps | internal/account/sync.go:403-555 | no local name disappears, and the guard's three entries come wholly from one side |
| KeyMerge.MergeSymmetric | internal/account/sync.go:403-414 | without conflicts it does not matter which side merges |
| KeyMerge.MergedRegular | internal/account/sync.go:415-517 | merging regular keyrings leaves a regular one |
| KeyMerge.GuardsCarry | internal/account/sync.go:557-569 | of regular keyrings, a key guarded on either side is guarded in the outcome |
| KeyMerge.WriteAcceptedExactly | internal/keystore/keystore.go:404-445 | the write that ends a merge is accepted if and only if the table takes over no filed or guarded key that is here, and no guard with another recipient |
| KeyMerge.MergeIdempotent | internal/account/sync.go:403-555 | once a merge could be written, merging the same vault again with the same answers leaves nothing to do, and reports the same conflicts, if and only if the vault holds no misfiled record that was kept out as guarded while its own key gets filed; vaults that file each key under its own record always qualify |
| KeyMerge.MergeAgainConflicts | internal/account/sync.go:403-555 | a vault, and an empty keyring, of which the second merge reports a conflict the first did not |
| KeyMerge.MergeEntries | internal/account/sync.go:452-509 | the loop that judges each name against the map as it is by then ends in the pointwise rule, in any order; when it does not, a guarded entry was blanked and the write is refused |
| KeyMerge.Store.WriteKeys | internal/keystore/keystore.go:404-445 | a write files named keys, is refused when a filed or guarded key or the guard would be lost, and changes that project only |
| KeyMerge.Store.MergeInto | internal/account/sync.go:426-514 | one project merged and written equals the rule, including the evicted case, refused names and refused writes |
| KeyMerge.Store.MergeVault | internal/account/sync.go:415-517 | the projects in turn, up to the first that fails; what was written before stays |
| KeyMerge.FileAll | internal/keystore/entries.go:95-121 | every named key lacking one gets its public-key entry, unless it is held guarded; nothing else changes |
| MergeEffects.FilesExactly | internal/keystore/entries.go:95-121 | exactly which records filing adds |
| MergeEffects.WritesExactly | internal/keystore/keystore.go:404-445 | exactly which writes are accepted, by the entries before and after, and that they change one project |
| MergeEffects.EvictedMerge | internal/account/sync.go:426-451 | merging an evicted project touches no keyring and reports exactly what differs here from a change on the server |
| MergeEffects.NewProject | internal/account/sync.go:426-451 | a project not here takes every entry but clear copies of keys held guarded, and cannot conflict |
| MergeEffects.ProjectHere | internal/account/sync.go:452-514 | a project here reports exactly its conflicts and is rewritten exactly when the table takes something |
| MergeEffects.InTurn | internal/account/sync.go:415-517 | projects in turn up to the first that fails |
| AccountSync.Account.ApplyKeyState | internal/account/cache.go:174-196 | every keyring becomes what the catalog leaves of it, and one that loses nothing is not rewritten |
| AccountSync.Account.SaveBase | internal/account/inventory.go:170-211 | the base keeps everything but evicted projects |
| AccountSync.Account.WritePending | internal/account/inventory.go:170-231 | the pending revision keeps, of an evicted project, exactly the local or already pending names the inventory holds |
| Account.PendingHolds | internal/account/inventory.go:170-231 | of an evicted project the pending revision has exactly the vault's entries whose names are in the keyring or were pending, and of any other project all of it |
| Account.BaseHolds | internal/account/inventory.go:170-211 | the base has every project but the evicted ones, as the vault has it |
| AccountEffects.Staged | internal/account/inventory.go:246-274 | exactly what staging leaves pending |
| AccountEffects.GuardChanged | internal/account/inventory.go:366-390 | a guard change stages the inventory, or what this device holds of the project when it is unguarded, swept |
| AccountEffects.GuardRecorded | internal/account/inventory.go:131-154 | the change is in the catalog one version after the greatest any source has, for that key only |
| AccountEffects.EvictedProject | internal/account/cache.go:62-101 | evicting drops the keyring and the base's part of one project and nothing else |
| AccountEffects.CachedProject | internal/account/cache.go:62-101 | caching it again merges the vault's entries in; the base has it again unless the write is refused |
| AccountSync.Account.StagePending | internal/account/inventory.go:246-274 | staging captures the local inventory, or clears the pending revision when it equals the base |
| AccountSync.Account.ChangeKey | internal/account/cache.go:129-169 | a tombstone or retirement of a key the vault holds is staged, then taken out of the keyrings; otherwise nothing changes |
| AccountSync.Account.SyncOnce | internal/account/sync.go:120-206 | one attempt equals its specification: rollback check, sweep, pull, second inventory, sweep, merge, acknowledge or prepare the upload |
| AccountEffects.Pulled | internal/account/sync.go:120-160 | exactly what pulling changes: nothing for an older vault, a sweep always, a merge unless that version is applied and no conflict is outstanding, and the conflicts found are on record |
| AccountEffects.Composed | internal/account/sync.go:161-206 | exactly what composing comes to: refused, in conflict, settled, or an upload over the version read with the inventory pending |
| AccountEffects.NextExactly | internal/account/sync.go:196-199 | the next generation is one more than the greater of the applied and the server's |
| AccountEffects.AttemptsGoOn | internal/account/sync.go:103-118 | attempts go on exactly while the vault changed meanwhile |
| AccountEffects.Rotated | internal/account/devices.go:262-278 | what a rotation uploads and keeps pending |
| AccountSync.Account.Sync | internal/account/sync.go:78-118 | the pending revision comes back first, then up to four attempts, ended by success, by a conflict or by an error |
| VaultSystem.RunSound | internal/account/sync.go:78-229 | in every reachable state stored vaults follow from one another, pins are true, and every upload sent and not yet landed is sound for the version it names, whatever its device did since |
| VaultSystem.TombstonesHold | internal/account/cache.go:129-172 | in every run, whatever is done to any keyring, once a stored vault tombstones a key every later one does and holds nothing about it: no guarded form, no copy under any name, no environment's guard naming it |
| VaultSystem.NoKeyLost | internal/account/inventory.go:93-154 | in every run in which nobody puts another value under a key's record, once that key is recorded in a stored vault it is in every later one unless some vault since then tombstones it, marks it guarded or holds its guarded form |
| VaultSystem.StagedKeyStays | internal/account/inventory.go:213-274 | in every run, a key in a keyring, of an evicted project too, survives the loss of every keyring once changes are staged: whatever is collected next holds it, unless it is tombstoned or guarded |
| SystemEffects.Landed | internal/server/api.go:404-443 | an upload is stored exactly when it names the current version; what its device does when answered, and that nothing else changes |
| SystemEffects.Sent | internal/account/sync.go:196-229 | which events send an upload, over which version, and which of them clears what is pending |
| VaultSystem.SealedKeysStay | internal/account/inventory.go:307-335 | in every run, a guarded key stays in every later vault unless it is tombstoned |
| VaultSystem.RollbackRefused | internal/account/sync.go:254-269 | in every run, of the vaults ever stored a device refuses exactly those older than the one it applied last |
| VaultSystem.GenerationsRise | internal/account/sync.go:196-199 | generations of stored vaults strictly increase |
| VaultSystem.HistoryGrows | internal/server/api.go:404-443 | the register only appends: stored versions are never taken back |
| VaultSystem.SyncForgets | internal/account/sync.go:134-194 | once an attempt has settled or is ready to upload, no keyring here holds anything about a key the fetched vault tombstones |
| VaultSystem.StagedChangesArrive | internal/account/sync.go:163-194 | what an attempt uploads, or finds the server to hold, extends the pending catalog |
| VaultSystem.TombstoneStaged | internal/account/cache.go:152-168 | a tombstone for a key of which the vault holds anything, clear or guarded, is in the pending revision, and nothing of the key is left in this device's keyrings |
| VaultSystem.RetirementStaged | internal/account/cache.go:152-168 | a retirement is pending, and this device's aliases of the key are gone at once while its guarded form stays |
| VaultSystem.NothingToChange | internal/account/cache.go:129-152 | a vault older than the one applied, or holding nothing about the key, changes nothing |
| Convergence.Converge | internal/account/sync.go:120-229 | two devices that edit disjoint names from a common acknowledged vault, then sync first, second, first again, end with identical keyrings equal to the server's, without conflict, nothing pending |
| Convergence.MixCarriesEdits | internal/account/sync.go:403-414 | those keyrings carry both sets of edits, removals included, and leave every other name as it was |
| Convergence.OneSync | internal/account/sync.go:120-229 | one sync against a server that holds disjoint edits leaves device and server with both, and stores nothing when the server holds them already |
| Convergence.SyncOverIsSync | internal/account/sync.go:64-118 | a sync whose one upload is stored is the device's sync over that one exchange |
| Convergence.EditsOfMix | internal/account/inventory.go:117-131 | seen from one side's staged edits, the mixed keyrings hold exactly the other side's |
| Convergence.MergedMix | internal/account/sync.go:415-517 | merging disjoint edits gives the mix, whatever answers a person would give |
| Convergence.SweepPool | internal/account/inventory.go:307-335 | the catalog that knows both sides' edits leaves, of everything either side holds, exactly the mix |
| Archive.RevisionInjective | internal/account/archive.go:289-291 | a file revision's id determines checkout, path and contents |
| Archive.CaptureIdInjective | internal/account/archive.go:176-180 | a capture's id determines checkout, parent and files |
| Archive.FreshId | internal/account/archive.go:162-180 | a new capture's id was never used before, even when the checkout returns to earlier contents |
| Archive.RecordOk | internal/account/archive.go:153-182 | recording changes nothing archived and adds at most one capture, one step after the newest; the newest then holds exactly the files read, each of which opens to its contents |
| Archive.RunOk | internal/account/archive.go:153-182 | over any history of visits to one archive it is well formed: each capture named after its predecessor, sequence numbers of a checkout distinct |
| Archive.CaptureThenRestore | internal/account/archive.go:424-470 | over any history, restoring with no revision named yields exactly the files of the last recorded visit, unless there were none |
| Archive.EveryRevisionRestores | internal/account/archive.go:491-527 | every revision ever made restores by name to its files, whatever is recorded later |
| Archive.TamperedRestore | internal/account/archive.go:388-450 | whatever objects the server hands out, a restore fails or yields, for each path, the contents its revision is named after |
| Archive.RestoresExactly | internal/account/archive.go:434-450 | a restore yields contents exactly when every file's reference matches and opens to them |
| ArchiveEffects.RevisionArchived | internal/account/archive.go:334-363 | exactly what archiving a file adds, under which names, and when the limit of 50000 refuses |
| ArchiveEffects.Recorded | internal/account/archive.go:153-182 | exactly when recording adds a capture, which step and parent it has, and when the limit refuses |
| ArchiveEffects.CheckoutExactly | internal/account/archive.go:491-506 | which checkout an unnamed one means |
| ArchiveEffects.SelectsExactly | internal/account/archive.go:507-527 | which capture a restore selects |
| ArchiveMerge.NumberedExactly | internal/account/archive.go:153-182 | over any run of recordings, merges and losses of copies, the sequence numbers of every checkout are distinct if and only if each capture was added by a copy that knew the latest one there was, or had been made before |
| ArchiveMerge.CopiesOk | internal/account/inventory.go:410-447 | while that holds every copy, and whatever two copies merge to, is well formed: captures named after their predecessors, every file opens, numbers distinct |
| ArchiveMerge.MergedRestore | internal/account/archive.go:424-470 | a merged archive restores what one copy read last, when the other knows no later capture of that checkout |
| ArchiveMerge.LostBaseForks | internal/account/archive.go:162-182 | a device that lost its copy and records a changed checkout makes a second first capture, and a server that merges it holds both |
| ArchiveMerge.LostBaseRefused | internal/account/inventory.go:410-447 | the server refuses that merge if and only if the two visits share a file: same bytes, another reference |
| ArchiveMerge.LostBaseMerges | internal/account/inventory.go:410-447 | and takes it in when they share none: two captures of a checkout then have one number |
| ArchiveMerge.StillRefused | internal/account/inventory.go:410-447 | two copies that cannot be merged stay so over any run, until one of them is lost |
| ArchiveShelf.Shelf.AddRevision | internal/account/archive.go:334-363 | one file revision in place, unless it is there; the limit refuses without a change |
| ArchiveShelf.Shelf.RecordCapture | internal/account/archive.go:153-182 | in any linked archive the loop over files and the search for the newest capture equal the specification for the order taken and the capture found, the only newest one where numbers are distinct |
| ArchiveShelf.NewestCapture | internal/account/archive.go:163-168 | the loop finds the capture of a checkout with the highest sequence number |
| ArchiveShelf.Shelf.SelectCapture | internal/account/archive.go:491-527 | a restore selects the named capture, or one with the highest number of its checkout, or gives the error; where numbers are distinct there is one answer |
| ArchiveShelf.Shelf.RestoreProject | internal/account/archive.go:434-450 | every file is authenticated before any is handed out |
| Uploads.MissingExactly | internal/account/archive.go:365-387 | an attempt, whatever it is shown and finds, meets a missing object if and only if the version is accepted and agrees with what the device knows, and the device knows a revision that is neither in that version nor on its disk nor among the objects just written |
| Uploads.MissingFresh | internal/account/archive.go:334-363 | when newly written objects are new, exactly when a revision the device knows is neither in that version nor on its disk |
| Uploads.NothingMissing | internal/account/archive.go:365-387 | in every run of staging, failed uploads, retries, lost answers, stale fetches, rotations and pruning, an attempt shown a version no older than any the device read into its base or pending revision never finds an object of its inventory missing |
| Uploads.AcceptedNothingMissing | internal/account/sync.go:254-269 | while a device has read nothing newer than what it applied, no version it accepts makes an object missing |
| Uploads.StaleFetchMisses | internal/account/cache.go:129-169 | a run in which a device that changed a key over a newer version accepts an older one again, and an object is missing |
| Uploads.PendingOnDisk | internal/account/inventory.go:246-305 | in every run, a pending revision the server does not hold has its object on disk |
| Uploads.VaultsComplete | internal/account/sync.go:203-226 | in every run, no stored vault refers to an object the server lacks, and none forgets a revision |
| UploadsEffects.CollectsExactly | internal/account/archive.go:334-363 | collecting adds exactly the revisions found that are unknown, with their objects on disk |
| UploadsEffects.StagesExactly | internal/account/inventory.go:246-305 | exactly what staging leaves pending and on disk |
| UploadsEffects.SendsExactly | internal/account/archive.go:365-387 | exactly when sending meets a missing object, which objects arrive, and when the vault is put |
| UploadsEffects.AttemptsExactly | internal/account/sync.go:120-229 | exactly what an attempt comes to for file objects |
| UploadsEffects.StoredExactly | internal/account/sync.go:206-229 | when a put vault is stored, and what its device has by how far it gets |
| Uploads.Outbox.PrunePendingObjects | internal/account/inventory.go:276-305 | the loop deletes exactly the objects no pending revision outside the base refers to |
| Uploads.Outbox.UploadObjects | internal/account/archive.go:365-387 | succeeds exactly when every owed object is on disk, holds what its name says and arrives; a missing file is reported only if one is missing, a mismatch only if there is one |
| EnvNames.SlotInjective | internal/team/team.go:348-350 | different environments have different keyring entries |
| EnvNames.SlotByName | internal/team/team.go:329-350 | an environment's entry is the record of a key exactly when the environment is called like it |
| EnvNames.ValidExactly | internal/team/team.go:329-336 | the environment names: at most 64 characters, words of lower-case letters and digits with dots between them |
| ImportKeys.ImportLosesNoKey | internal/account/team.go:1205-1267 | a written import leaves every private key the keyring held under its name or its public key, whatever environments are called, unless the project endangers it |
| ImportKeys.ImportLosesKey | internal/account/team.go:1222-1260 | of every key a project endangers, a well-formed keyring and a written import after which it is nowhere |
| ImportKeys.LostExactly | internal/account/team.go:1205-1267 | so a key can be lost if and only if two environments give it up in turn, the first with an alias as its entry, the second with that key's record as its entry |
| ImportKeys.EndangeredByName | internal/team/team.go:329-350 | by names: an environment called like the key, and another, not called like a key, before it, neither having it as its own, each with it retired or replaceable by consent |
| ImportKeys.SafeKeysStay | internal/account/team.go:1261-1265 | whatever environments are called, a key that was filed or guarded is so after every written import |
| ImportKeys.OwnSlotsImport | internal/account/team.go:1205-1267 | when every environment's entry is an alias or its own key's record, the import into any well-formed keyring succeeds, leaves it well formed and loses no key |
| ImportKeys.ReplacedOnlyIfHeld | internal/account/team.go:1230-1241 | unattended, and whatever environments are called, a written import replaces a value only if it is an environment's key that was both retired in the project and recorded as held before |
| ImportKeys.ConflictsExact | internal/account/team.go:1222-1260 | an environment is reported exactly when another key is here that was not both and the person did not agree; then nothing of it changes, otherwise the key is taken in and recorded, whatever other environments are called |
| ImportKeys.ImportedExactly | internal/account/team.go:1222-1265 | an environment is among those imported exactly when its entry changed, and the keyring is written exactly when anything did |
| ImportKeys.GrantExactly | internal/account/team.go:1211-1267 | whatever an environment is called, importing its key is refused exactly when that would replace another key's record that is filed, and leaves every record its own key exactly when it replaces none |
| ImportKeys.ImportsFineExactly | internal/team/team.go:329-350 | every import into every well-formed keyring succeeds and leaves it well formed if and only if no environment's entry is the record of another environment's or any other key |
| ImportKeys.FiledKeysStay | internal/account/team.go:1261-1265 | whatever the environments are called, a written import leaves every filed key as it was |
| ImportKeys.Pins.Record | internal/account/team.go:71-79 | the key is in its environment's list afterwards, which keeps what it had, in order, gains nothing else and stays without duplicates; other environments keep theirs |
| ImportKeys.Pins.Import | internal/account/team.go:1211-1267 | the loop over granted keys equals the specification |
| Broker.OneAnswerEach | internal/broker/broker.go:393-442 | under any interleaving no channel is answered twice |
| Broker.ApproveNeverBlocks | internal/broker/broker.go:423-442 | under any interleaving an approver about to answer finds room, and its answer is the first |
| Broker.LockRejectsAll | internal/broker/session.go:45-53 | locking answers false to every approval still pending and leaves none |
| Broker.OpenExactly | internal/broker/session.go:15-61 | after the latest lock or unlock the broker serves from its keys if and only if that was an unlock and its time is not over; no earlier session's timer ends a later one |
| Broker.ServesUnlockedKeys | internal/broker/session.go:15-33 | in every run, after an unlock and with nothing unsealed since, a request is answered from exactly the keys it brought, until its time is over |
| Broker.ServesFirstKeys | internal/broker/broker.go:149-164 | before any lock or unlock, from the keys the broker started with |
| Broker.LockedServesNothing | internal/broker/session.go:37-54 | after a lock nothing is served until the next unlock |
| Broker.UnsealSetsOne | internal/broker/document.go:157-169 | ending an unsealing sets the one entry of the one project and leaves all other entries and projects |
| Broker.ServedHadKey | internal/broker/document.go:47-169 | in every run, a read that returned had captured an epoch and come by a key that was served while the broker was open, unsealed after a check that it was, or opened elsewhere |
| Broker.ApprovedOnRecord | internal/broker/broker.go:423-442 | in every run, a waiter is told yes only on a channel that someone approved with the decision on record |
| BrokerEffects.Unlocked | internal/broker/session.go:15-33 | everything an unlock changes: epoch, keys, deadline, its own callback, and the timer it stops |
| BrokerEffects.Locked | internal/broker/session.go:37-54 | a lock leaves no keys and no deadline, and starts an epoch |
| BrokerEffects.Expired | internal/broker/session.go:26-32 | a callback acts once, when due, and on the keys only in its own epoch |
| BrokerEffects.RejectsExactly | internal/broker/session.go:45-53 | locking answers exactly the pending channels, false, and drops their requests |
| BrokerEffects.ApprovalBegun | internal/broker/broker.go:423-434 | an approval takes the request out first, and will answer only with the decision on record |
| BrokerEffects.ReadFetched | internal/broker/broker.go:149-164 | a read gets a key exactly when the broker is open and holds one for it |
| BrokerEffects.ReadFinished | internal/broker/document.go:123-125 | what a read comes to at its end |
| Broker.EpochCounts | internal/broker/session.go:21-43 | the epoch stays the same exactly while nothing locks or unlocks |
| Broker.ServedIffUndisturbed | internal/broker/document.go:47-125 | a read with a key in hand returns data if and only if its epoch is not checked or did not change between its capture and the final check: the broker's own epoch, or for a forwarded broker its owner's |
| Broker.ReadEpochCounts | internal/broker/read.go:76-81 | the epoch a read checks is unchanged between two points exactly when the server it is read from neither locked nor unlocked between them |
| Broker.Server.Unlock | internal/broker/session.go:15-33 | a new epoch, its own callback and deadline, and the given keys |
| Broker.Server.Lock | internal/broker/session.go:37-54 | the loop over pending channels answers without waiting and drops each |
| Broker.Server.Expire | internal/broker/session.go:26-32 | only the current epoch's callback clears the keys |
| Broker.Server.KeyFor | internal/broker/broker.go:149-164 | a key is returned exactly when the broker is unlocked, unexpired, holds the project and resolution finds one among its entries; it is the one found |
| Broker.Server.NewPending | internal/broker/broker.go:393-403 | a new channel under the id, and nothing sent |
| Broker.Server.BeginUnsealing | internal/broker/document.go:145-156 | unsealing starts exactly when the broker is unlocked and unexpired |
| Broker.Server.EndUnsealing | internal/broker/document.go:157-169 | the key is held whatever happened to the session meanwhile, and nothing else of the session changes |
| Broker.Server.FinishRead | internal/broker/document.go:123-125 | data is returned exactly when the epoch is the captured one, or no consent is installed |
| Broker.Server.Approve | internal/broker/broker.go:423-442 | takes the channel out first, and sends exactly one answer if and only if the decision was recorded |

## Left out

- Format checks of chain links (the regular expressions, passkey and certificate parsing) are predicates of the chain model's `Ideal`; device keys are compared as the encoded strings the code compares.
- Device records are map values, not objects shared between a state and its copies; `Machine.State.Next` copies the maps.
- Ed25519, sealed boxes, XChaCha20-Poly1305, SHA-256 and JSON are ideal functions: signature predicates, injective digests and encodings, and a cipher that opens what it sealed.
- A stored private key is its canonical text: spellings of one key that differ in case or white space are not told apart, and two private keys with one public key are not modelled.
- Guarding writes (`WriteGuarded`) and sealing keyring files on disk are not modelled; a keyring is a map.
- Device profiles and vault files in the inventory, the list of added entries a sync reports, and the index sent beside a vault.
- The wording of errors, where one condition can produce several.
- Wrap-around of 64-bit counters.
- Revocation.Rotate: the wrap for the master key, the re-sealed vault and the commit are not part of it; the vault a rotation uploads is `Uploads.Rotate`'s and `VaultSystem`'s.
- Revocation.Revoke: nor the sync before revoking and the vault in the commit.
- Inventory.Draft.AddSource: device profiles and vault files of a source are not merged.
- Inventory.CollectInventory: nor collected; capturing checkouts is `ArchiveShelf.Shelf.RecordCapture`, and the collected archive is the catalog's.
- AccountSync.Account.ChangeKey: the syncs around it and the check that the public key is 64 hex characters are its caller's.
- AccountSync.Account.SyncOnce: uploading objects between preparing and putting a vault is `Uploads`' part; the put itself is an exchange of `AccountSync.Account.Sync`.
- AccountSync.Account.Sync: starts once the chain is verified and this device found active in it (`Machine.Verify`, `ChainInvariants.DeviceHistory`); a failure there returns before anything is read.
- KeyVault.PublicEntry: an `ESEC_GUARD_ENV_` value of 64 hex characters that is itself a private key's text is read as a private key and so names no public key; the program lowercases any such text. The guard writes public keys there.
- KeyMerge.MergeIdempotent: a person asked again is taken to answer the same. A refused write changes nothing and is refused again; `KeyMerge.WriteAcceptedExactly` says when.
- VaultSystem.RunSound: the signature check on a vault is not part of the run; a fetch shows some version that was stored, or none. An answer may reach a device that has acted since it sent the upload, which in the program it then no longer awaits.
- VaultSystem.HistoryGrows: the server keeps only the newest versions of a vault; the model keeps them all.
- Convergence.Converge: guards are not edited, nothing is evicted, and edits are of keys no one has tombstoned, retired or guarded; with those, what an edit means is decided by the other results.
- Archive.CaptureThenRestore: checkout walking, safe paths, the guarded-seal checks and writing the restored files are not modelled; a visit starts from a map of paths to bytes.
- ArchiveMerge.NumberedExactly: copies are merged two at a time; a device gathering base, pending revision and server is two merges.
- Uploads.NothingMissing: files in the pending directory are deleted by the program only, and hold what their names say; `Uploads.Outbox.UploadObjects` reports those that do not.
- ImportKeys.OwnSlotsImport: of environments whose entry is an alias or their own key's record; `ImportKeys.GrantExactly` covers the others, one grant at a time.
- ImportKeys.ConflictsExact: of an environment whose own entry is an alias or its own key's record. What an environment called like another key comes to in a larger import depends on what was filed before its turn.
- Broker.Server.KeyFor: `esec.ResolveKey`, which looks through environment suffixes and the file's public key, is not part of this repository or this model; resolution is a parameter.
- Broker.OpenExactly: says what is served, not what is in memory; unsealing may store a key after its lock check.
- Random ids of pending approvals may collide in the model as in the code; what a waiter then receives is not claimed.
- HTTP, sockets, sign-in, the OS keyring, file locks, prompts, audit files, group grants, offboarding, transfers, workloads, the team chain and the command line.
