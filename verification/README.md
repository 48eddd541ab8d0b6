# Egress service: verified model

The egress service keeps two worlds in agreement. One is a database with two tables, egress rules and
their attachments to agents or environments. The other is OpenZiti, where every public rule owns a service
and every attachment owns a dial policy. gRPC handlers write both worlds, one statement or call at a time,
and a reconciler goroutine runs beside them. This project models both worlds, the handlers, the
reconciler, rule validation, the intercept-collision report with its attach-time check, and the store's
listings and reference counts, and proves what holds of them.

## How the model is built

* `worlds.dfy` holds the state (`tables.dfy`, `fabric.dfy`) and every atomic step: each SQL statement, each
  OpenZiti call, and what the outside may do (delete any object, edit the selectors of any policy, create
  objects under names the sweep does not look at). `Legal` says what each step relies on when it is taken.
  A run is any sequence of legal steps, so it covers every interleaving of handlers and passes.
* `platform.dfy` is the class through which one process sees both worlds. Each of its methods is one atomic
  step under an environment: `Quiet` (nobody else runs, nothing fails), `Faulty` (nobody else runs; two
  scripts say of every statement and every OpenZiti call whether it is done, its request lost or its reply
  lost) or `Shared` (any finite legal run of others may happen before each step, and steps may fail too). A
  claim over all scripts is a claim over all faults, and a claim that names an outcome in the script says
  exactly which fault does what. Under every environment a method may take a step only after proving it legal
  at that moment; `GuardStable` shows that what a process learnt does not go stale.
* `provisioning.dfy`, `reconciler.dfy`, `sweeps.dfy` and `reconciliation.dfy` are the pass as imperative
  code over that class. Run alone it is proved equal to the function `Pass` of `passes.dfy`, about which
  `convergence.dfy`, `theorems.dfy` and `onepass.dfy` prove the main results. The pass has two parts,
  reconciling the listed rows and sweeping; `interleavings.dfy` runs handlers between the two, and shows what
  interleaving breaks, exactly when, and that it heals.
* `admission.dfy` says what OpenZiti does with a dial policy: whom it admits to which service. With it
  convergence gets its meaning, who may dial what, and so does the collision report in `reachability.dfy`.
* `rulehandlers.dfy` and `attachmenthandlers.dfy` are the five writing handlers. Their contracts say what
  each outcome leaves behind when nothing fails and when anything may fail. `runs.dfy` serves whole sequences
  of requests, passes and outside edits; `drift.dfy` says when an update leaves the two worlds in disagreement.
* `validation.dfy`, `patterns.dfy` and `addresses.dfy` are rule validation; `agreement.dfy`,
  `privatetargets.dfy` and `references.dfy` relate stored rows to intercept configs, mediation flags, secrets
  and the reference counts; `collisions.dfy` and `fastfail.dfy` are the report and the attach-time check;
  `pagination.dfy` is the keyset listing. `naming.dfy`, `configs.dfy`, `rules.dfy`, `uuids.dfy`, `text.dfy`,
  `ordering.dfy` and `wrappers.dfy` hold what they share.

## Assumptions

* OpenZiti: names are unique per kind of object; ids are non-empty and never issued twice; a create call with
  `return_existing` answers with the object of that name, unchanged, if there is one; listings page by a
  stable key cursor; only this service gives out names with its prefix (with the `-dial` suffix, for policies).
* OpenZiti: a policy with one selector on each side admits the identities the one picks to the services the
  other picks; `@id` picks an object by id, `#tag` the objects that carry the tag. Whatever runs under an agent
  or environment carries the tag `agent-<id>` or `environment-<id>`; a private resource's services carry
  `private-resource-<id>`, and no name with this service's prefix.
* Nobody outside edits services: a pass compares a service's name and role attributes but neither repairs
  roles nor looks at configs (`PassKeepsService`).
* `uuid.New` draws an id that was never drawn before. The tables remember every id that ever named a row.
* In the runs of `runs.dfy` a secret keeps its organization, and a private resource its organization and protocol.
* The networks service expands an agent's grants by those of its environment (`Expanded`), and a listing and
  a lookup do not tell different things of one resource (`Agrees`).

## Findings

* One pass is not always enough: a pass that finds an attachment's policy gone adopts whatever policy bears
  the name, even a stale one, and only the next pass replaces it. `OnePassExact` gives the exact condition on
  the world before the pass, and `OnePassIsNotEnough` a reachable world with a rule a request can store.
* A pass deletes the service of a rule, or the policy of an attachment, that a handler stored after the pass
  listed the rows (`CreateDuringPass`, `AttachDuringPass`), exactly of those that the listing had not
  (`LateSweepExact`, `LatePolicySweepExact`). A later pass repairs it (`LateSweepHeals`).
* Of two racing attaches of one rule to one target the loser's cleanup deletes the winner's policy
  (`RacingAttaches`, `LoseRace`). A failed insert costs a stored attachment its live policy exactly when its
  binding was taken meanwhile by an attachment with a live policy, that is a refusal as already existing, and
  never when it fails otherwise (`CleanupAfterInsert`). A later pass repairs it (`RaceHeals`).
* If an update moves the service and then does not write the row, the service intercepts what no stored matcher
  says, and no number of passes repairs it (`DriftHappens`). From agreement this can happen exactly to a public
  rule with a live service whose matcher is replaced by one that intercepts differently (`UpdateCanDrift`), and
  it does exactly when the reply to the move or the request of the row's statement is lost (`DriftExact`).
* A create or attach answers with an error although the row is stored exactly when the reply to the insert, or
  the read-back after it, is lost (`StoreNewRule`, `StoreAttachment`, with the instances
  `CreateWithLostReadBack` and `StoreWithLostReadBack`).
* The comment on updates says that an all-empty TLS block clears the stored one. A block that sets
  `insecure_skip_verify` to false and nothing else is stored as an empty block instead, and cleared only by the
  next validation (`TlsStability`, `TlsNotIdempotent`).
* The pattern `*.local` is accepted although it intercepts the reserved name `cluster.local`; it is the only
  exception (`ReservedNeverIntercepted`, `ExceptionMatches`).
* An update of name or description alone stores them as sent, untrimmed (`UpdatedNameTrimmed`).

## Model

| member | source | states |
|---|---|---|
| Worlds.StepSound | internal/server/service.go:16-354 | Every statement and call, by whomever and in whatever order, keeps the invariant relating rows and OpenZiti objects; ids are never reused, no object is renamed, no row changes its identity. |
| Worlds.GuardStable | internal/server/service.go:129-205 | A guard a process established once still holds after any steps of others, so acting on an old read stays safe. |
| Worlds.EveryInterleaving | internal/server/service.go:39-45 | After any legal run from an empty installation: a rule is private iff its stored service id is empty; a stored service or policy id is dangling or names an object whose name belongs to exactly that rule, or that rule and target. |
| Worlds.ResourceNeverChanges | internal/server/service.go:170-194 | Between any two moments of any run, a rule still stored has kept its organization and its private resource. |
| Tables.InsertAttachmentSound | migrations/0002_environment_attachments.sql:13-19 | Inserting keeps primary keys, the foreign key, the one-target check and uniqueness per rule and target, whether the row is accepted or not. |
| Tables.RowDeletesSound | migrations/0001_init.sql:15-23 | Deleting rules and attachments never leaves an attachment without its rule. |
| Tables.TargetRowsExact | internal/store/store.go:171-205 | The join by agent or environment yields a rule iff some attachment binds it to that target. |
| Tables.RuleRowsExact | internal/store/store.go:158-169 | The full listing holds every row exactly once, ascending by id. |
| Naming.ServiceNameInjective | internal/server/provisioning.go:24-26 | A service name belongs to one rule. |
| Naming.DialPolicyNameInjective | internal/server/provisioning.go:28-30 | A dial policy name determines the rule, the kind of target and the target. |
| Naming.NamesAreSwept | internal/server/reconciler.go:107-161 | Every name the service gives out passes the filters of the two sweeps. |
| Naming.IdentityRoleInjective | internal/server/provisioning.go:60-65 | The identity selector of a policy admits one target only. |
| Text.TrimExact | internal/server/validation.go:60-61 | Trimming takes white space from both ends and nothing else, until none is left there. |
| Text.CaseFolding | internal/server/validation.go:60-61 | Each case folding undoes the other and leaves no letter of the other case. |
| Uuids.UuidTextShape | internal/server/provisioning.go:24-38 | An id's text is lower-case hexadecimal in groups of 8, 4, 4, 4 and 12. |
| Platforms.Platform.Step | internal/server/service.go:129-205 | One atomic step that was legal when the process last looked is legal when it is taken, whatever ran in between, and keeps the world reachable and sound. |
| Platforms.Platform.CreateService | internal/server/provisioning.go:81-93 | The answered id was issued for, and if live is named for, the given rule. |
| Platforms.Platform.CreatePolicy | internal/server/provisioning.go:148-164 | The answered id belongs to the given rule and target; without return_existing a taken name is an error. |
| Provisioning.ReconcileRuleService | internal/server/provisioning.go:95-111 | Answers an id that belongs to the rule; alone it leaves OpenZiti as it was or as the reconciled service demands; a fitting service costs no write. |
| Provisioning.UpdateRuleService | internal/server/provisioning.go:113-131 | Alone, only the intercept of the rule's own service may change, and success means it was live and now catches exactly TCP to the rule's domain on its ports. |
| Provisioning.ReplaceAttachmentPolicy | internal/server/provisioning.go:188-197 | With nothing failing the replacement never hits a taken name, because deleting the old policy freed it. |
| Provisioning.ReconcileAttachmentPolicy | internal/server/provisioning.go:166-186 | Never errors when nothing fails; keeps a fitting policy without a write, replaces a live one that does not fit, adopts the bearer of the name if its own is gone; unless a stale bearer was adopted, the policy admits exactly what runs under the target to exactly what the rule is about. |
| Reconciler.ReconcileOneRule | internal/server/reconciler.go:59-76 | One turn of the rule loop under any interleaving stores only ids that belong to the rule; cut short anywhere it leaves attachments and policies alone. |
| Reconciler.ReconcileAllRules | internal/server/reconciler.go:58-76 | The rule loop over a snapshot; alone it equals the fold of the specification and fills the map with exactly the rules table. |
| Reconciler.ReconcileAllAttachments | internal/server/reconciler.go:77-91 | The attachment loop; alone it equals the fold of the specification and never meets an unknown rule; on matching policies it writes nothing. |
| Sweeps.PageBetween | internal/server/reconciler.go:107-131 | Pages with deletions in between cover the listing without gap or overlap, and the ids above the cursor shrink. |
| Sweeps.DeleteOrphanServices | internal/server/reconciler.go:102-132 | The paged loop removes exactly the services with the prefix and the role whose name no listed rule manages, and nothing else; it ends; it writes nothing if there are none; cut short by a failure anywhere, it has removed some of these and nothing else. |
| Sweeps.DeleteOrphanServicePolicies | internal/server/reconciler.go:134-171 | The same for dial policies with prefix and suffix whose name no listed attachment manages. |
| Sweeps.ServicesSpared | internal/server/reconciler.go:119-126 | However far the sweep of the services came, every service that is no orphan is still there unchanged, and so are rows and policies. |
| Sweeps.PoliciesSpared | internal/server/reconciler.go:155-164 | The same for the sweep of the policies. |
| Sweeps.DeleteUnmanagedService | internal/server/reconciler.go:119-126 | Under every environment, interleaved or not, the sweep issues a delete only for a service whose name no listed rule manages, and that is so when the call arrives. |
| Sweeps.DeleteUnmanagedPolicy | internal/server/reconciler.go:155-164 | The same for policies: with the suffix and no listed attachment managing the name. |
| Theorems.SweepFacts | internal/server/reconciler.go:92-97 | Sweeping with the names the tables manage removes every orphan and spares every object a row relies on. |
| Reconciliation.ReconcileRows | internal/server/reconciler.go:49-91 | The listing and the two loops alone are exactly the reconciling phases of Pass, answer with the two listings, and write nothing on a converged world without orphans. |
| Reconciliation.SweepOrphans | internal/server/reconciler.go:92-97 | Both sweeps with the names of given listings, on whatever world they run: exactly the orphans of those listings go, and if a sweep fails nothing but such orphans is gone. |
| Reconciliation.Reconcile | internal/server/reconciler.go:49-100 | A pass alone is exactly the function Pass; with nothing failing it never errors; on a converged world without orphans it issues no store write and no OpenZiti mutation; under interleaving each of its steps is legal. |
| Reconciliation.Run | internal/server/reconciler.go:29-47 | Undisturbed, the loop has converged after one tick, workloads may then dial exactly what is attached to their targets, and it stays there; it writes nothing on a world that had converged. |
| Convergence.RulesSettle | internal/server/reconciler.go:58-76 | The rule loop settles every rule it has met, keeps every service there was, and does nothing if all were settled. |
| Convergence.AttachmentsSettle | internal/server/reconciler.go:77-91 | The attachment loop gives every attachment it has met a live policy, the right one if it had a live one, and leaves the others' policies alone. |
| Theorems.OnePass | internal/server/reconciler.go:49-100 | After one pass from any sound world every rule is settled, every policy live, nothing orphaned, and whoever had a live policy has the right one. |
| Theorems.TwoPassConvergence | internal/server/reconciler.go:49-100 | After any legal run, two undisturbed passes end with every public rule's id naming a live correctly named service, every attachment's id naming a live matching policy, no orphans, and a third pass changes nothing. |
| Theorems.Fixpoint | internal/server/reconciler.go:59-97 | A pass leaves a world unchanged iff it had converged and had no orphans. |
| Theorems.PassesStabilise | internal/server/reconciler.go:29-47 | Any number of passes from two on gives the world after two. |
| Theorems.UnmanagedGoes | internal/server/reconciler.go:119-126 | After a completed pass no service is named for a rule that is not stored. |
| Theorems.PassKeepsService | internal/server/provisioning.go:239-245 | A settled rule's service comes through a pass unchanged whatever it intercepts, so passes do not repair config drift. |
| SinglePass.DecidedExact | internal/server/provisioning.go:95-111 | The rules phase leaves in every row the service id that the world before it decides: the stored one if live, else that of a live service of the rule's name, else the next ids in order of rule id. |
| SinglePass.OnePassExact | internal/server/provisioning.go:172-181 | One pass converges iff no attachment whose stored policy is gone finds a live policy of its name that is not the one it will ask for; the condition is told from the world before the pass. |
| SinglePass.OnePassIsNotEnough | internal/server/provisioning.go:177-178 | A reachable world, whose rule is in the form validation gives out, that one pass does not bring into agreement and two do. |
| Admission.PolicyAdmits | internal/server/provisioning.go:32-79 | A dial policy admits an identity to a service iff the identity carries the target's tag and the service is the public rule's own, by id, or carries the private rule's resource tag. |
| Admission.AdmittedExact | internal/server/provisioning.go:247-259 | In a converged world without orphans some managed dial policy admits an identity to a live service iff an attachment binds a target whose tag it carries to a rule about that service. |
| Admission.RuleAdmission | internal/server/provisioning.go:69-79 | There, an identity is admitted to the service of a public rule iff that rule, and no other, is attached to a target it runs under. |
| Admission.ConvergedAdmits | internal/server/provisioning.go:40-79 | There, a workload may dial a public rule's service iff the rule is attached to its target, and a private resource's service iff a rule that names the resource is. |
| Admission.TwoPassAdmission | internal/server/reconciler.go:49-100 | After any legal run, two undisturbed passes end with workloads able to dial exactly what is attached to their targets. |
| Interleavings.LateSweepExact | internal/server/reconciler.go:119-126 | A live rule's service survives the sweep of a pass with an older listing iff the listing had the rule. |
| Interleavings.LatePolicySweepExact | internal/server/reconciler.go:155-164 | An attachment's live policy survives such a sweep iff the listing had an attachment of the same rule to the same target. |
| Interleavings.LateSweep | internal/server/reconciler.go:92-97 | The sweeping part of a pass over listings of an earlier world ends in exactly the world the two results above speak of. |
| Interleavings.CreateDuringPass | internal/server/reconciler.go:49-97 | A create handler between the two parts of a pass: nothing fails, both succeed, and a public rule is stored with its service swept. |
| Interleavings.AttachDuringPass | internal/server/reconciler.go:49-97 | The same for an attach handler: the attachment is stored with its policy swept. |
| Interleavings.LateSweepHeals | internal/server/reconciler.go:49-100 | Whatever such a sweep cost, one more pass settles every rule and gives every attachment a live policy. |
| Interleavings.RacingAttaches | internal/server/service.go:292-310 | Two interleaved attaches of one rule to one target, nothing failing, leave the winner's row without its policy. |
| Interleavings.LoseRace | internal/server/service.go:305-310 | The handler's insert and cleanup with nothing failing: if the binding was taken with its policy live the answer is AlreadyExists and the holder has lost that policy; otherwise nobody has lost one. |
| Interleavings.RaceHeals | internal/server/reconciler.go:77-91 | The next pass gives the winner a live policy again. |
| RuleHandlers.ValidateSecrets | internal/server/service.go:529-548 | Passes only if every secret exists in the organization, and with nothing failing exactly then, however ids repeat. |
| RuleHandlers.StoreNewRule | internal/server/service.go:35-65 | Provision, insert, clean up, read back: from the fate of its statement and calls the method ends in exactly the world CreateRemains speaks of; the answer is an error with the row stored iff the service call answered and the insert's reply or the read-back was lost. |
| RuleHandlers.CreateWithLostReadBack | internal/server/service.go:56-65 | For every admissible request, a lost read-back makes the handler answer an error with the row stored. |
| RuleHandlers.CreateRemains | internal/server/service.go:35-65 | Exactly what a create leaves, by the fate of its statement and calls: the row iff the insert's request arrived; the new service iff the reply to its creation was lost, or it was created and the insert was done or the cleanup's request lost; nothing else changed. |
| RuleHandlers.CreatedMeaning | internal/server/service.go:45-55 | What a create stores of each requested field: the organization parsed, names trimmed, matcher, effect and TLS block as validation keeps them. |
| RuleHandlers.CreateWithTls | internal/server/private_targets.go:35-63 | With nothing failing, a valid request with TLS settings and known secrets is accepted iff its resource is an https resource of its organization, and the settings are stored. |
| RuleHandlers.AdmissibleExact | internal/server/service.go:20-34 | What is looked up before a create, in full: every secret in the organization, and a resource of it that is https, or http without TLS settings. |
| RuleHandlers.CreateEgressRule | internal/server/service.go:16-71 | A refused create changes nothing; success is exactly row, service and mediation flag, and a public rule's service catches exactly its domain and ports; a create that passed its checks ends, under any faults, in exactly the world CreateRemains speaks of. |
| RuleHandlers.FailedCreateHeals | internal/server/service.go:56-61 | A create whose row was not stored leaves OpenZiti as before or with exactly one service more, and the next completed pass removes it. |
| RuleHandlers.UpdateEgressRule | internal/server/service.go:129-205 | An update ends with nothing changed, with only the service moved, or with everything written, exactly by the fate of its statements and call; with nothing failing it succeeds exactly under the stated checks and otherwise changes nothing; what it stores is what AmendedMeaning says. |
| RuleHandlers.AmendedMeaning | internal/server/service.go:145-188 | An accepted update stores every requested field as validation keeps it (action, each header in its place, matcher, TLS block, names) and leaves every other field of a canonical row, up to an empty TLS block and white space around names. |
| RuleHandlers.AmendedAccepts | internal/server/service.go:150-178 | An update of a canonical row passes validation iff each requested part does and the private resource stays. |
| Runs.UpdateAdmissibleExact | internal/server/service.go:170-182 | What is looked up before an update: every secret of the row to be stored if anything is validated, and the resource iff the request carries TLS settings. |
| RuleHandlers.AmendedKeeps | internal/server/service.go:145-188 | No accepted update changes the rule's id, organization, private resource or stored service id. |
| RuleHandlers.UpdatedNameTrimmed | internal/server/service.go:146-187 | The stored name is trimmed iff the update revalidated the rule or the name came trimmed. |
| RuleHandlers.DeleteEgressRule | internal/server/service.go:207-242 | Deletes only an unattached rule, row before service, and once both reads answered ends exactly as the fates of the delete and of the call say; with nothing failing it succeeds iff the service is still there to delete, and the mediation flag follows the remaining rules. |
| AttachmentHandlers.CleanupSpares | internal/server/service.go:305-310 | The policy that a failed attach deletes is no stored attachment's policy. |
| AttachmentHandlers.CleanupExact | internal/server/service.go:305-310 | Deleting a row's live policy costs a stored attachment its own iff that attachment binds the same rule to the same target and its policy is live. |
| AttachmentHandlers.CleanupAfterInsert | internal/server/service.go:305-310 | With any outcome of the insert and of the cleanup call: a stored attachment loses its live policy iff the fresh row's binding is taken by an attachment with a live policy, the row's own policy is live, and the cleanup's request arrives; the refusal is then a unique violation. |
| AttachmentHandlers.InsertOrCleanUp | internal/server/service.go:305-310 | The branch itself ends in exactly the world the result above speaks of, and tells a taken binding from any other refusal. |
| AttachmentHandlers.StoreAttachment | internal/server/service.go:292-314 | However the insert ends, every other attachment keeps its row and its live policy; from the fate of its statement and calls the method ends in exactly the world AttachRemains speaks of; the answer is an error with the row stored iff the policy call answered and the insert's reply or the read-back was lost. |
| AttachmentHandlers.AttachRemains | internal/server/service.go:292-310 | Exactly what that leaves: the row iff the insert's request arrived, a policy of its name iff it was not cleaned up, and every other policy as it was. |
| AttachmentHandlers.StoreWithLostReadBack | internal/server/service.go:311-314 | For every unattached target, a lost read-back makes an attach answer an error with the row stored. |
| AttachmentHandlers.CreateEgressRuleAttachment | internal/server/service.go:244-317 | Success settles the rule, adopts or creates the policy and inserts the row, and unless a stale policy bore the name the policy admits exactly the target's workloads to exactly what the rule is about; however it fails, stored attachments and their live policies are untouched; refusals change nothing and are told apart. |
| AttachmentHandlers.AttachSettles | internal/server/service.go:278-310 | A successful attach leaves the rule settled and the policy live, and the policy right iff no stale one of its name was there. |
| AttachmentHandlers.AttachAdmits | internal/server/service.go:278-310 | With no live policy of its name before, an attach leaves a policy that admits exactly what runs under the target to exactly what the rule is about. |
| AttachmentHandlers.AttachReports | internal/server/collisions.go:47-118 | The report on the world a successful, checked attach leaves holds, for each agent, what it held before and exactly what slips through the check. |
| AttachmentHandlers.DeleteEgressRuleAttachment | internal/server/service.go:319-354 | Row before policy, and once both reads answered it ends exactly as the fates of the delete and of the call say; with nothing failing it succeeds iff the policy is still there to delete. |
| Agreement.AcceptedIsCanonical | internal/server/validation.go:25-57 | Every accepted input makes a canonical row whose secrets are the ones reported for checking. |
| Configs.InterceptCatches | internal/server/provisioning.go:231-237 | The config of a matcher catches a connection iff it is TCP to the matcher's domain on one of its ports. |
| Agreement.AgreementCatches | internal/server/provisioning.go:231-237 | Where intercepts agree, the live service of a stored public rule catches exactly that rule's domain and ports. |
| Agreement.CanonicalRevalidates | internal/server/service.go:152-169 | A stored row passes validation again with the same matcher, effect and secrets. |
| Agreement.SteadyKeeps | internal/server/provisioning.go:81-131 | Whatever part of a pass or attach was carried out, intercept agreement, canonical rows, checked secrets and resource references stand. |
| Runs.UnmovedIntercepts | internal/server/service.go:189-195 | The handler moves the service exactly when the new stored matcher intercepts differently from the old one, effect-only updates included. |
| Runs.UpdateKeepsIntercepts | internal/server/service.go:189-198 | From agreement, an update ends in agreement iff it did not end with the service changed and the row not. |
| Drift.UpdateCanDrift | internal/server/service.go:189-198 | From agreement some end of an update disagrees iff the request gives a public rule with a live service a matcher that intercepts differently. |
| Drift.DriftExact | internal/server/service.go:189-198 | With what becomes of the call and the statement given: the update ends in disagreement iff the request is such a one and the reply to the move or the request of the row's statement is lost. |
| Drift.UpdateWithLostRow | internal/server/service.go:129-205 | The handler does strand the service of every such rule when the statement is lost: it answers an error, no row changed, and intercepts disagree. |
| Drift.PassesKeepDisagreement | internal/server/provisioning.go:239-245 | A settled rule whose service intercepts something else is left so by any number of passes. |
| Drift.DriftHappens | internal/server/service.go:189-198 | A reachable world in agreement, a storable rule and a request that strands its service in a reachable world, which stays in disagreement after any number of passes. |
| Runs.UndrawnStay | internal/server/service.go:35-41 | Ids not drawn yet never come to name a row or a service. |
| Runs.Serve | internal/server/service.go:16-354 | Over any sequence of requests, passes and outside deletions and selector edits, with any faults, the worlds passed through form a trace: each request leads to the next as its handler promises; rows stay canonical, secrets checked, and every private rule names an http or https resource of its organization, with TLS settings only on https; every service named for a stored rule catches exactly its domain and ports before the first update that strands one, which never happens with nothing failing or without updates; mediation flags agree while store and networks work. |
| Runs.EmptyIsGood | migrations/0001_init.sql:1-23 | An empty installation with every resource on the tunnel meets what Serve asks of its start. |
| PrivateTargets.ValidatePrivateTarget | internal/server/private_targets.go:35-63 | Passes only for an http or https resource of the rule's organization, TLS settings only for https, and with nothing failing exactly then. |
| PrivateTargets.TargetAllowedExact | internal/server/private_targets.go:48-62 | A named resource passes iff it belongs to the organization and is https, or http without TLS settings. |
| Runs.AmendedFits | internal/server/service.go:176-182 | An admissible update keeps a rule's TLS settings on an https resource of its organization, although only a request with a TLS block is checked against the resource. |
| PrivateTargets.SyncPrivateResourceMediation | internal/server/private_targets.go:69-85 | Sets the flag by whether any stored rule still names the resource; if a call fails no flag changes but to that value. |
| PrivateTargets.SyncRestores | internal/server/private_targets.go:65-85 | Syncing the one resource a write may have touched restores the agreement of all flags with all rules. |
| References.SecretAgreement | internal/store/store.go:346-372 | For every stored rule, the secrets it is counted for are exactly those a validation of the row reports, and each was found in the rule's organization. |
| References.MediationAgreement | internal/store/store.go:378-423 | Some stored rule names a resource iff the list for the resource's organization contains it, and no other organization's list does; so a flag that agrees with the rules agrees with the list. |
| Validation.ValidatePorts | internal/server/validation.go:169-187 | The loops over a set in arbitrary order, with the sort, compute the one ascending list of the ports in use, or refuse. |
| Validation.PortsCanonical | internal/server/validation.go:169-187 | Accepted ports are strictly ascending, in 1..65535, and exactly the input's set or {80, 443}; refused iff one is out of range. |
| Validation.CanonicalPortsAsSets | internal/server/provisioning.go:296-306 | On canonical lists position by position comparison is comparison of sets. |
| Validation.InterceptsAsSets | internal/server/provisioning.go:275-282 | For validated public matchers intercept configs are equal iff domains and port sets are. |
| Validation.ValidateMethods | internal/server/validation.go:189-205 | The deduplicating loop computes the specified list or refuses an empty method. |
| Validation.MethodsCanonical | internal/server/validation.go:189-205 | Accepted methods are ascending, normalised, and exactly the input's normalised methods. |
| Validation.ValidateMatcher | internal/server/validation.go:59-102 | Accepts and normalises exactly as the specification function, with the same first error. |
| Validation.MatcherMeaning | internal/server/validation.go:59-102 | Exactly which matchers are accepted, and what is stored: the lower-case domain, the resource, the trimmed path, the set of upper-case methods, and the set of ports or {80, 443}. |
| Validation.MatcherCanonical | internal/server/validation.go:59-102 | An accepted matcher is canonical: one destination, never a reserved pattern, ports and methods canonical. |
| Validation.CanonicalMatcherFixed | internal/server/service.go:152-166 | A canonical matcher is accepted again and returned unchanged. |
| Validation.ValidateEffect | internal/server/validation.go:207-239 | The header loop with its set of lower-case names computes the specified effect and secrets, with the same first error. |
| Validation.HeadersMeaning | internal/server/validation.go:222-238 | A header list is accepted iff every header is and no two names agree without case, and then every header stays in its place. |
| Validation.HeaderMeaning | internal/server/validation.go:241-284 | Exactly which headers are accepted (a plain name, a known scheme, a plain user name for basic only, a value or a secret id) and what is stored of each field. |
| Validation.EffectMeaning | internal/server/validation.go:207-239 | Exactly which effects are accepted and which do nothing; the stored action is the requested one and every header stands in its place. |
| Validation.EffectCanonical | internal/server/validation.go:207-284 | An accepted effect has well-formed headers, no two names equal without case, and reports exactly the secrets its headers name. |
| Validation.CanonicalEffectFixed | internal/server/validation.go:207-284 | A canonical effect is accepted again unchanged with the same secrets. |
| Validation.TlsStability | internal/server/validation.go:106-134 | Validating an accepted TLS block again gives it back iff it is not an empty server name with verification switched on explicitly; that one becomes the empty block and then none. |
| Validation.TlsMeaning | internal/server/validation.go:106-134 | Exactly which TLS blocks are accepted, and what is stored: the trimmed server name and the trust asked for, nothing of an empty block. |
| Validation.TlsNotIdempotent | internal/server/validation.go:122-131 | For every private resource a request may name, a block on which the second validation differs from the first, beside a matcher that validation accepts as it is. |
| Validation.Canonicalisation | internal/server/validation.go:25-57 | Whatever is accepted is accepted again in its stored form, unchanged up to the empty TLS block, with the same secrets; from the second validation on nothing changes. |
| Validation.InputMeaning | internal/server/validation.go:25-57 | Which inputs are accepted, part by part, and what is stored of each field. |
| Patterns.MatchesExactly | internal/server/private_targets.go:195-206 | A pattern matches a host iff they are equal or the host is one non-empty label in front of the wildcard's rest. |
| Patterns.RejectReservedDomainPattern | internal/server/validation.go:136-148 | The suffix loop refuses exactly the patterns in a reserved zone or overlapping the carrier-grade NAT block. |
| Patterns.ReservedExact | internal/server/validation.go:136-143 | The reserved names are agyn, svc and cluster.local and whatever ends in a dot and one of them. |
| Patterns.ReservedNeverIntercepted | internal/server/validation.go:136-143 | An accepted pattern matches no reserved name, bare or below, with the single exception of *.local on cluster.local. |
| Patterns.ExceptionMatches | internal/server/validation.go:136-143 | The exception is real: the pattern is accepted and does match. |
| Patterns.PortsOverlap | internal/server/private_targets.go:208-217 | True iff the two port lists have a port in common. |
| Addresses.CidrOverlapExact | internal/server/validation.go:165-167 | The two base checks hold iff the two address blocks share an address. |
| Addresses.ContainsIsBlock | internal/server/validation.go:165-167 | A masked prefix contains exactly the addresses from its base to the end of its block. |
| Addresses.ParseAddressText | internal/server/validation.go:155-157 | Dotted decimal text of any four octets denotes that address. |
| Addresses.ParseCidrText | internal/server/validation.go:158-162 | An address followed by a prefix length is no address but denotes the masked prefix. |
| Addresses.CarrierGradeNatExact | internal/server/validation.go:150-163 | The check holds iff the text denotes some address from 100.64.0.0 to 100.127.255.255. |
| Collisions.KeyInjective | internal/server/collisions.go:100-104 | The text key tells (agent, rule, resource) triples apart. |
| Collisions.HitsExact | internal/server/private_targets.go:195-217 | A public rule meets a resource iff their ports meet and the pattern is the resource's host or stands for it by one label. |
| Collisions.GroupRules | internal/server/collisions.go:51-70 | The two maps hold, for every agent and environment, the rules bound to it in order; the organizations are those of attached rules. |
| Collisions.EffectiveExact | internal/server/collisions.go:79-82 | What is grouped under an agent and its environment is what some attachment brings to the agent. |
| Collisions.ListAgents | internal/server/collisions.go:123-144 | Lists only agents of the organizations; all of them if no page fails. |
| Collisions.ReachableResources | internal/server/collisions.go:163-207 | Only resources granted or named by a private rule, with their true host and ports whatever the cache holds; all of them if no lookup fails. |
| Collisions.ReportAgent | internal/server/collisions.go:95-115 | The nested loops with the set of seen keys add exactly the agent's triples, each once. |
| Collisions.CollectInterceptCollisions | internal/server/collisions.go:47-118 | The report repeats no triple and invents none; when every lookup succeeds it holds every triple of every listed agent, so cache and seen set do not show. |
| Reachability.HeldIsAdmitted | internal/server/collisions.go:79-82 | In agreement the public rules grouped under an agent are exactly those whose services OpenZiti admits its identity to. |
| Reachability.ReportMeaning | internal/server/collisions.go:47-118 | In agreement a triple is reported iff the agent dials the resource and OpenZiti admits it to the rule's live service, whose config catches the resource's host on one of its ports. |
| FastFail.AttachmentAdds | internal/server/collisions.go:95-114 | Exactly which triples one more attachment adds to an agent's report. |
| FastFail.RejectInterceptCollision | internal/server/private_targets.go:131-158 | With working lookups refuses exactly when a grant to the target meets the public rule, or a public rule attached to the target meets the private rule's resource; failing lookups only let more through. |
| FastFail.RejectionIsReported | internal/server/private_targets.go:131-193 | Every refusal is justified: attaching would put a triple of the new rule or resource into the report for each listed agent of the target. |
| FastFail.AcceptedResidue | internal/server/private_targets.go:138-193 | After an accepted attach the new triples are exactly those whose other half reaches the agent on a way the check does not look at. |
| FastFail.ResidueCases | internal/server/private_targets.go:138-193 | What slips through, case by case: for a public rule the resources private rules give the agent, and on an environment also those granted to the agent alone; for a private rule the public rules attached only to the agent's environment, or only to the agent. |
| FastFail.ReportAlike | internal/server/collisions.go:47-70 | The report depends on the rows only through what they bind, and not on stored service ids. |
| FastFail.JoinedIsDirect | internal/store/store.go:171-205 | The rules joined to a target are those the report would see attached to it directly. |
| Pagination.FetchPage | internal/store/store.go:118-156 | Asking for one row more and truncating gives an ascending page, the next cursor iff something is left, and nothing missed up to it. |
| Pagination.ListRules | internal/store/store.go:118-156 | A page of the rules that match organization and filter, never longer than the normalised size (50 for none, at most 100) and full if a next cursor is given. |
| Pagination.ListAttachments | internal/store/store.go:294-333 | The same for attachments joined to their rule's organization, filtered by rule and agent. |
| Pagination.NextPageWalks | internal/store/store.go:132-154 | One more fetch from a changed store extends an ascending walk, misses nothing that matched at every fetch, and has fewer ids above the cursor. |
| Pagination.WalkRules | internal/store/types.go:69-99 | A walk over a store that changes between fetches, with any page sizes, ends, is strictly ascending without repeats, shows only rows that matched when fetched, and shows every row that matched throughout. |

## Left out

- Authorization, identity metadata and forwarding of the caller: each handler takes the verdict as a parameter.
- Parsing of request ids and of the attachment target: requests carry parsed ids and a parsed target.
- Notifications, logging, timestamps and the ticker's clock: no effect on the modelled state.
- SQL text, JSON spelling and migrations: abstract tables with the stated constraints and a total order on ids.
- Page cursor encoding: a cursor is the id it carries.
- UUID spellings other than 36 characters: braces, the URN prefix and the form without hyphens are not read.
- Unicode: trimming, case folding and white space are ASCII.
- IPv6 and IPv4-mapped addresses: an IPv6 text counts as a name.
- The host config: it does not depend on the rule; only intercept configs are kept per service.
- The descriptive texts of a collision (by which attachment or grant) and its log line: the triple is kept.
- Services configured without a networks or agents client: both are taken as present.
- Listings by agent or environment, private resource infos and conversions to messages: field-by-field copying.
- Reconcile: the report at its end is modelled apart, because it changes neither world.
- Serve: covers one request, pass or outside step at a time and no outside edit of services, because intercept agreement is claimed for such runs only; interleavings are covered by the step-level invariant, two-pass convergence and the exact conditions above.
