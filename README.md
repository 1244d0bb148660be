# Taxiye operations hub — a verified model

The operations hub is the back office of a ride-hailing service. It has two
halves that share one hosted database:

- an **admin console** with pages for drivers, passengers, trips, support
  tickets, notifications and wallet transactions. A sidebar is filtered by the
  admin's role. A server function binds a signed-in account to its admin
  profile.
- a **call centre** for agents, supervisors and admins. It has a waiting-call
  queue, active calls, ride dispatch, ticket handling, communication channels,
  an emergency screen (escalations confirmed by a six-digit code) and an admin
  panel for admin profiles.

This project models that core in Dafny.

**Database and handlers**
- The database is a value of type `Tables.Db`, with one sequence per table and a counter that supplies fresh row ids.
- The database is held in the mutable object `Tables.Store`.
- Each event handler is a method that changes the store through the same row writes the handler makes, in the same order, with the same guards.
- Each method is proved equal to a pure function of the old database. Properties of the handlers are lemmas about those functions.
- Component state that the handlers update (the typed response, the selected row, the form fields, the processing and loading flags) lives in a class with those fields.

**Pure code**
- Queries, filters, statistics, formatters and lookup tables are pure functions over sequences and strings.

**Modules** (one per source file)
- `Common`: JavaScript string semantics, and the generic `Filter`, `UpdateWhere`, `OrderBy`, `Take` and sums with their algebra.
- `Tables`: the rows.
- One module for each component, page, hook and the server function.

## Model

| member | source | states |
|---|---|---|
| EscalationActions.OtpNumber | src/components/call-center/emergency/hooks/useEscalationActions.ts:19 | the drawn code `floor(100000 + r * 900000)` lies in [100000, 999999] for every draw 0 <= r < 1 |
| EscalationActions.OtpCodeShape | src/components/call-center/emergency/hooks/useEscalationActions.ts:19 | the code's decimal text has exactly six digits and no leading zero |
| EscalationActions.CreateEscalation | src/components/call-center/emergency/hooks/useEscalationActions.ts:8-72 | the handler's writes and result equal `Create` on the old database, with the code drawn by `OtpCode` |
| EscalationActions.CreateRefused | src/components/call-center/emergency/hooks/useEscalationActions.ts:9-31 | a blank or whitespace-only reason, or a failed insert, leaves the database unchanged (no escalation, no ticket change, no log) |
| EscalationActions.CreateInsertsPending | src/components/call-center/emergency/hooks/useEscalationActions.ts:21-30 | a created escalation is `pending`, has no `escalated_to`, is escalated by the user, and keeps the ticket, reason and code |
| EscalationActions.CreateTouchesOnlyTicket | src/components/call-center/emergency/hooks/useEscalationActions.ts:32-42 | the ticket update sets only `priority = urgent` and `updated_at` on the escalated ticket and never sets its `escalated_to`; other tickets are unchanged |
| EscalationActions.CreateLogs | src/components/call-center/emergency/hooks/useEscalationActions.ts:44-56 | a successful creation appends one `escalation` log entry by the creator holding the ticket, reason and code |
| EscalationActions.VerifyOtp | src/components/call-center/emergency/hooks/useEscalationActions.ts:75-113 | the handler's writes and result equal `Verify` on the old database |
| EscalationActions.VerifyRefused | src/components/call-center/emergency/hooks/useEscalationActions.ts:76-83 | a blank code, or a failed update, returns false and changes nothing |
| EscalationActions.VerifyMatchesIdAndCode | src/components/call-center/emergency/hooks/useEscalationActions.ts:86-94 | a row changes only when both its id and its code match; it then becomes `acknowledged`, with `escalated_to` = the user and the verification time set |
| EscalationActions.VerifyWrongCodeReportsSuccess | src/components/call-center/emergency/hooks/useEscalationActions.ts:86-104 | with a code that matches no row nothing changes, yet the result is true; the current status is never checked |
| EscalationActions.ResolveEscalation | src/components/call-center/emergency/hooks/useEscalationActions.ts:116-142 | the handler's writes and result equal `Resolve` on the old database |
| EscalationActions.ResolveOnlyThatRow | src/components/call-center/emergency/hooks/useEscalationActions.ts:118-123 | resolve sets `resolved` on the row with that id, whatever its status, leaves other rows and tables as they were, and resolving twice is resolving once |
| EscalationActions.CreateVerifyResolve | src/components/call-center/emergency/hooks/useEscalationActions.ts:8-142 | create, verify with the generated code, resolve: the new escalation is acknowledged by the responder with the verification time, earlier escalations are unchanged, and it ends `resolved` |
| EscalationCard.ColoursAgree | src/components/call-center/emergency/EscalationCard.tsx:16-31 | status colour and border colour: pending is red, acknowledged is yellow, resolved is green in both; any other status has a gray badge but a green border |
| EscalationCard.ActionsExclusive | src/components/call-center/emergency/EscalationCard.tsx:55-80 | acknowledge (pending, non-agent) and resolve (acknowledged) are never offered together; an agent never sees acknowledge; the code is shown only on a pending row that has one |
| EscalationCard.AcknowledgeClick | src/components/call-center/emergency/EscalationCard.tsx:64-70 | acknowledge yields this escalation's id exactly when the button is offered |
| EscalationCard.ResolveClick | src/components/call-center/emergency/EscalationCard.tsx:74-80 | resolve yields this escalation's id exactly when the button is offered |
| UrgentTicketCard.EscalateClick | src/components/call-center/emergency/UrgentTicketCard.tsx:43-55 | escalate yields this ticket's id exactly when the controls are shown (role is not agent) and the trimmed reason is not empty |
| UrgentTicketCard.EnabledMeansAttempted | src/components/call-center/emergency/UrgentTicketCard.tsx:55 | an enabled escalate never hits the blank-reason refusal of the creation hook; a reason with a non-white-space character enables it |
| OtpCard.Typed | src/components/call-center/emergency/OtpVerificationCard.tsx:36 | the field keeps at most the first six characters of what is typed |
| OtpCard.GeneratedCodeAccepted | src/components/call-center/emergency/OtpVerificationCard.tsx:36-41 | every code the hook can generate fits the field unchanged, enables Verify and is not blank |
| OtpCard.OtpVerificationCard.constructor | src/components/call-center/emergency/OtpVerificationCard.tsx:14-15 | the card opens on the selected escalation with an empty code |
| OtpCard.OtpVerificationCard.OnChange | src/components/call-center/emergency/OtpVerificationCard.tsx:34-37 | a change stores the capped text |
| OtpCard.OtpVerificationCard.HandleVerify | src/components/call-center/emergency/OtpVerificationCard.tsx:17-20 | verifies the selected escalation with the typed code; the code is cleared whatever the outcome, and the card closes on success |
| OtpCard.OtpVerificationCard.Cancel | src/components/call-center/emergency/OtpVerificationCard.tsx:46-50 | cancel closes the card without touching the database |
| EscalationsQuery.TimeAgoUnits | src/components/call-center/emergency/hooks/useEscalations.ts:60-68 | the label names the largest unit that fits (minutes below 60, hours below 1440 minutes, then days), rounded down |
| EscalationsQuery.EscalationListShape | src/components/call-center/emergency/hooks/useEscalations.ts:13-27 | every escalation is listed once, newest first, with its row unchanged and only its label added |
| EscalationsQuery.UrgentTicketsSelection | src/components/call-center/emergency/hooks/useEscalations.ts:38-47 | a ticket is urgent exactly when its priority is urgent or high, its status open or in progress, and it is not taken; the list is oldest first |
| EscalationsQuery.EscalatedTicketStaysUrgent | src/components/call-center/emergency/hooks/useEscalationActions.ts:32-42 | an escalated open ticket stays in the urgent list, because creation never sets `escalated_to` |
| TicketManagement.TicketListSelection | src/components/call-center/TicketManagement.tsx:31-64 | a ticket is listed exactly when it is in the role's view under the filter; the list is newest first |
| TicketManagement.FilterMeaning | src/components/call-center/TicketManagement.tsx:48-60 | an agent sees only their own tickets under every filter; for other roles assigned, unassigned and escalated mean what they say, and `open` also needs status open or in progress |
| TicketManagement.Display | src/components/call-center/TicketManagement.tsx:66-78 | a missing priority shows as `normal` and a missing category as `general`; the row is kept |
| TicketManagement.TicketPanel.constructor | src/components/call-center/TicketManagement.tsx:27-29 | the panel starts with nothing selected, an empty response and the `assigned` filter |
| TicketManagement.TicketPanel.AssignTicket | src/components/call-center/TicketManagement.tsx:90-124 | the handler's writes equal `Assign` on the old database |
| TicketManagement.TicketPanel.SendResponse | src/components/call-center/TicketManagement.tsx:126-166 | the handler's writes equal `Respond`; the text is cleared only when both writes succeed |
| TicketManagement.TicketPanel.ResolveTicket | src/components/call-center/TicketManagement.tsx:168-202 | the handler's writes equal `Resolve`; the selection is cleared on success |
| TicketManagement.AssignTakesOver | src/components/call-center/TicketManagement.tsx:92-110 | assign sets the agent, `in_progress` and the first-response time, even on a ticket that already has an agent, after which the assigner gets the response panel and no Assign button; other tickets are unchanged; it logs once; a failed update changes nothing |
| TicketManagement.RespondAppends | src/components/call-center/TicketManagement.tsx:127-150 | a blank text or a failed insert writes nothing; otherwise a non-internal agent response by the user is appended |
| TicketManagement.RespondReopens | src/components/call-center/TicketManagement.tsx:142-150 | after a response the ticket is `in_progress` whatever its prior status, even a resolved one |
| TicketManagement.ResolveMarks | src/components/call-center/TicketManagement.tsx:170-188 | resolve sets `resolved` and the resolution time and keeps the agent; a `ticket_resolved` entry is logged; a failed update writes nothing, log included |
| TicketManagement.AssignMovesBetweenFilters | src/components/call-center/TicketManagement.tsx:50-56 | after assign a ticket is in the `assigned` view and out of the `unassigned` view |
| SupportTickets.TicketQuerySelection | src/pages/SupportTickets.tsx:22-54 | a ticket is listed exactly when its subject or driver phone holds the term ignoring case and the status and priority filters (unless `all`) match |
| SupportTickets.SearchIgnoresCase | src/pages/SupportTickets.tsx:37-39 | a term and its lower-case form find the same tickets |
| SupportTickets.StatsBounded | src/pages/SupportTickets.tsx:181-186 | open, in-progress and resolved counts add up to at most the total |
| SupportTickets.StatusLabelFirstUnderscore | src/pages/SupportTickets.tsx:321 | the label turns `in_progress` into `in progress` and replaces only the first underscore |
| SupportTickets.SupportTicketsPage.constructor | src/pages/SupportTickets.tsx:19-20 | nothing is selected and the response is empty |
| SupportTickets.SupportTicketsPage.HandleSendResponse | src/pages/SupportTickets.tsx:56-96 | the handler's writes equal `Respond`; the text is cleared only on full success |
| SupportTickets.SupportTicketsPage.HandleUpdateStatus | src/pages/SupportTickets.tsx:98-129 | the handler's writes equal `UpdateStatus` |
| SupportTickets.RespondEffects | src/pages/SupportTickets.tsx:57-78 | a blank text or failed insert writes nothing; a response is a non-internal agent message; on a failed ticket update it stays but the ticket does not change; on success the ticket is in progress and its first-response time is overwritten |
| SupportTickets.ResolvedAtOnlyOnResolve | src/pages/SupportTickets.tsx:98-107 | a status change writes `resolved_at` only for `resolved`; closing keeps it; other tickets are untouched |
| AdminPanel.CanManageUserTable | src/components/call-center/AdminPanel.tsx:190-194 | a root admin manages every role, a supervisor only operations staff, and anybody else nobody |
| AdminPanel.CallCenterAdminManagesNobody | src/components/call-center/AdminPanel.tsx:190-194 | a user whose role is `admin` (the call-centre role) can manage no profile and never sees a toggle |
| AdminPanel.RoleOptions | src/components/call-center/AdminPanel.tsx:249-258 | operations staff and supervisor are always offered; root admin only to a root admin |
| AdminPanel.OfferedRolesPassGuard | src/components/call-center/AdminPanel.tsx:96-113 | for an offered role, creation is refused exactly when the email or the name is empty |
| AdminPanel.AdminPanelForm.constructor | src/components/call-center/AdminPanel.tsx:32-34 | the form starts empty with role `operations_staff` |
| AdminPanel.AdminPanelForm.HandleCreateAdminUser | src/components/call-center/AdminPanel.tsx:95-144 | the handler's writes equal `Create`; after a successful insert the form resets to empty fields and `operations_staff` |
| AdminPanel.AdminPanelForm.HandleToggleAdminStatus | src/components/call-center/AdminPanel.tsx:146-179 | the handler's writes equal `Toggle` |
| AdminPanel.CreateAppends | src/components/call-center/AdminPanel.tsx:96-123 | a created profile has the chosen role and is active; a non-root admin creating a root admin writes nothing |
| AdminPanel.CreateKeepsValid | src/components/call-center/AdminPanel.tsx:116-123 | creation keeps admin-profile ids distinct |
| AdminPanel.ToggleFlips | src/components/call-center/AdminPanel.tsx:148-161 | toggle negates the given status on that id only; a root admin cannot toggle themself |
| AdminProfileFunction.Serve | supabase/functions/create-admin-profile/index.ts:16-218 | the request handler's writes and reply equal `Handle` on the old database |
| AdminProfileFunction.MissingFieldsRefused | supabase/functions/create-admin-profile/index.ts:49-54 | `create` without an email or a name, `toggle_status` without an id, and the default path without user id, email or name all reply 400 and write nothing |
| AdminProfileFunction.CreateDefaultsRole | supabase/functions/create-admin-profile/index.ts:56-64 | `create` inserts an active, unbound profile whose role defaults to `operations_staff` |
| AdminProfileFunction.ToggleSetsFlag | supabase/functions/create-admin-profile/index.ts:83-98 | `toggle_status` sets the supplied flag on that id only and returns that row |
| AdminProfileFunction.ExistingProfileReturned | supabase/functions/create-admin-profile/index.ts:122-143 | when a profile is bound to the account it is returned unchanged and nothing is written |
| AdminProfileFunction.PreRegisteredBound | supabase/functions/create-admin-profile/index.ts:145-180 | otherwise a single pre-created unbound profile with that email is bound: account and name are set, role and active flag are kept |
| AdminProfileFunction.DefaultLeavesOneProfile | supabase/functions/create-admin-profile/index.ts:122-209 | after a successful default call exactly one profile is bound to the account |
| AdminProfileFunction.DefaultIdempotent | supabase/functions/create-admin-profile/index.ts:122-143 | a repeated default call with the same request writes nothing more and returns the same profile |
| AdminProfileFunction.AmbiguousEmailInserts | supabase/functions/create-admin-profile/index.ts:145-204 | when several unbound profiles share the email the lookup fails, the failure is only logged, and a new profile is inserted |
| CallCenterDashboard.TabCount | src/components/call-center/CallCenterDashboard.tsx:96-112 | every role has between three and five tabs |
| CallCenterDashboard.TabsForRole | src/components/call-center/CallCenterDashboard.tsx:96-112 | the tab list is built step by step and equals the first `TabCount(role)` tabs |
| CallCenterDashboard.TabsByRole | src/components/call-center/CallCenterDashboard.tsx:97-109 | queue, tickets and communication come first for everyone; escalation only for supervisor and admin; admin only for admin |
| CallCenterDashboard.TabsMonotone | src/components/call-center/CallCenterDashboard.tsx:96-112 | a more privileged role's tabs extend a less privileged role's tabs |
| CallCenterDashboard.ContentMatchesTabs | src/components/call-center/CallCenterDashboard.tsx:217-223 | a tab's content renders exactly when the role has that tab |
| CallCenterDashboard.AvailableAgentsCount | src/components/call-center/CallCenterDashboard.tsx:59-66 | the available agents are the active users whose role is agent |
| CallCenterDashboard.Logout | src/components/call-center/CallCenterDashboard.tsx:73-94 | logout appends one `logout` log entry for the user with the time |
| Sidebar.VisibleItemsSelection | src/components/Sidebar.tsx:97-99 | an item is shown exactly when its roles include the user's role, in menu order |
| Sidebar.SuperAdminSeesAll | src/components/Sidebar.tsx:28-95 | `super_admin` sees all eleven items |
| Sidebar.SettingsAndAdminRolesSuperAdminOnly | src/components/Sidebar.tsx:84-94 | Settings and Admin Roles are shown only to `super_admin` |
| Sidebar.UnknownRoleSeesNothing | src/components/Sidebar.tsx:97-99 | a role named in no item sees no item |
| Sidebar.RoleLabelFirstUnderscore | src/components/Sidebar.tsx:156 | the role label replaces only the first underscore (`super_admin` shows as `super admin`) |
| DriversManagement.DriverQuerySelection | src/pages/DriversManagement.tsx:22-44 | a driver is listed exactly when name, phone or email holds the term and the status filter (unless `all`) matches |
| DriversManagement.StatusBadge | src/pages/DriversManagement.tsx:88-99 | approved, rejected and suspended have their own badge; every other status, or none, shows Pending |
| DriversManagement.StatsBounded | src/pages/DriversManagement.tsx:111-116 | the pending, approved and rejected counts are each at most the total |
| DriversManagement.OfferedTransitions | src/pages/DriversManagement.tsx:334-389 | pending offers approve and reject, approved offers suspend, suspended offers reactivate, any other status nothing; no action leads back to pending |
| DriversManagement.DriversPage.constructor | src/pages/DriversManagement.tsx:18-20 | nothing selected, empty notes and reason |
| DriversManagement.DriversPage.HandleStatusUpdate | src/pages/DriversManagement.tsx:46-86 | the handler's writes equal `UpdateStatus`; on success selection, notes and reason are cleared, on failure they are kept |
| DriversManagement.DriversPage.Click | src/pages/DriversManagement.tsx:334-389 | a button press has the effect `Press` gives on the selected driver |
| DriversManagement.UpdateFields | src/pages/DriversManagement.tsx:48-65 | an update always sets status and review times; notes only when non-blank; a rejection reason only for `rejected` with a non-blank reason; other drivers are untouched |
| DriversManagement.RejectNeedsReason | src/pages/DriversManagement.tsx:347-357 | a blank reason blocks rejection; a non-blank one is stored with status `rejected` |
| DriversManagement.OtherActionsKeepReason | src/pages/DriversManagement.tsx:58-60 | approve, suspend and reactivate never change a stored rejection reason |
| AgentQueue.QueueSelection | src/components/call-center/AgentQueue.tsx:33-42 | the queue holds exactly the active channels with no agent, oldest first |
| AgentQueue.DurationParts | src/components/call-center/AgentQueue.tsx:66-73 | "Hh Mm" when whole hours are positive, else "Mm", with M the minutes modulo 60 |
| AgentQueue.DeterminePriority | src/components/call-center/AgentQueue.tsx:75-82 | urgent after more than ten minutes, high after more than five, else normal |
| AgentQueue.PriorityMonotone | src/components/call-center/AgentQueue.tsx:75-82 | a longer wait never lowers the priority; exactly ten minutes is high and exactly five is normal |
| AgentQueue.CustomerName | src/components/call-center/AgentQueue.tsx:84-89 | the name is never empty and is one of the candidates or `Unknown Customer` |
| AgentQueue.CustomerNameFallback | src/components/call-center/AgentQueue.tsx:84-89 | the name is the first non-empty of ride passenger name, passenger name and driver name, else `Unknown Customer` |
| AgentQueue.CustomerPhone | src/components/call-center/AgentQueue.tsx:91-96 | the phone is the ride's passenger phone when set, else the channel's passenger reference, else its driver reference, else `N/A`; it is never empty |
| AgentQueue.AgentQueuePanel.constructor | src/components/call-center/AgentQueue.tsx:24-25 | no call is being processed |
| AgentQueue.AgentQueuePanel.AcceptCall | src/components/call-center/AgentQueue.tsx:98-139 | the handler's writes equal `Accept`; the processing marker is cleared whatever the outcome |
| AgentQueue.AcceptLeavesQueue | src/components/call-center/AgentQueue.tsx:98-120 | after a successful accept the call gets the accepting agent and status `active`, so it is no longer waiting; every other channel is unchanged, and one `call_start` entry is logged |
| ActiveCalls.PassengerOf | src/components/call-center/ActiveCallsPanel.tsx:19-24 | the inner join finds a passenger whose phone is the ride's passenger reference, or none exists |
| ActiveCalls.DisplayStatus | src/components/call-center/ActiveCallsPanel.tsx:41 | pending shows waiting, accepted shows in progress, everything else on hold |
| ActiveCalls.DurationAsWrittenAmbiguous | src/components/call-center/ActiveCallsPanel.tsx:48-55 | as written, five minutes and five hours both show `5:00` |
| ActiveCalls.DurationRoundTrip | src/components/call-center/ActiveCallsPanel.tsx:48-55 | the corrected label `H:MM` reads back to the elapsed whole minutes |
| ActiveCalls.DurationAgreesFromAnHour | src/components/call-center/ActiveCallsPanel.tsx:48-55 | from one hour on the corrected label equals the label as written |
| ActiveCalls.DurationDistinguishes | src/components/call-center/ActiveCallsPanel.tsx:48-55 | two waits get the same corrected label only when they have the same whole minutes |
| ActiveCalls.CallerName | src/components/call-center/ActiveCallsPanel.tsx:34 | the joined passenger's name when non-empty, else the ride's own passenger name, else `Unknown`; never empty |
| ActiveCalls.CallerPhone | src/components/call-center/ActiveCallsPanel.tsx:35 | the joined passenger's phone when non-empty, else the ride's own passenger phone, else `N/A`; never empty |
| ActiveCalls.ActiveCallsShape | src/components/call-center/ActiveCallsPanel.tsx:17-43 | a ride is listed exactly when it is pending, accepted or in progress and has a passenger; there is one call per listed ride |
| ActiveCalls.ActiveCallsMapping | src/components/call-center/ActiveCallsPanel.tsx:32-43 | the i-th call comes from an open ride with a passenger: it keeps the ride's id and locations, shows the caller name and phone with their fallbacks, has high priority exactly when pending, shows the status label, and its duration is the label as written for the time since creation, equal to the corrected label from one hour on |
| ActiveCalls.SearchKeeps | src/components/call-center/ActiveCallsPanel.tsx:105-110 | an empty search keeps every call; the result keeps order; a matching call is kept |
| ActiveCalls.HandleAnswerCall | src/components/call-center/ActiveCallsPanel.tsx:57-70 | answering sets that ride to `accepted` |
| ActiveCalls.HandleEndCall | src/components/call-center/ActiveCallsPanel.tsx:72-85 | ending sets that ride to `cancelled` |
| ActiveCalls.AnswerAndEnd | src/components/call-center/ActiveCallsPanel.tsx:57-78 | answer sets `accepted` and end sets `cancelled` on that ride, which takes it off the panel; other rides are untouched |
| ActiveCalls.AnswerOnRideInProgress | src/components/call-center/ActiveCallsPanel.tsx:41 | a ride in progress shows on hold with Answer enabled, and answering moves it back to accepted |
| RideDispatch.PendingRidesSelection | src/components/call-center/RideDispatchPanel.tsx:19-30 | the pending list holds exactly the pending rides that have a passenger, newest first |
| RideDispatch.AvailableDrivers | src/components/call-center/RideDispatchPanel.tsx:54-56 | exactly the online, approved drivers |
| RideDispatch.TimeAgoMinutes | src/components/call-center/RideDispatchPanel.tsx:78-83 | the request time is the whole minutes elapsed in decimal digits followed by " min ago", readable back to that number |
| RideDispatch.PendingItemsMapping | src/components/call-center/RideDispatchPanel.tsx:33-43 | each pending item keeps its ride's id and locations, shows the passenger's name and phone with the ride's own fields, then `Unknown`/`N/A`, as fallbacks, the time since the ride was created, and the fare or 0 when it has none |
| RideDispatch.PickIndex | src/components/call-center/RideDispatchPanel.tsx:92 | the random index lies in [0, n) |
| RideDispatch.HandleAutoAssign | src/components/call-center/RideDispatchPanel.tsx:85-112 | the handler's writes equal `AutoAssign` |
| RideDispatch.HandleManualAssign | src/components/call-center/RideDispatchPanel.tsx:114-129 | the handler's writes equal `Assign` |
| RideDispatch.AutoAssignPicksAvailable | src/components/call-center/RideDispatchPanel.tsx:86-100 | with no available driver nothing is written; otherwise the ride gets an online, approved driver and `accepted`; other rides are untouched |
| RideDispatch.ManualAssignOnlyThatRide | src/components/call-center/RideDispatchPanel.tsx:114-120 | assign sets driver and `accepted` on that ride only; a failed update changes nothing |
| RideDispatch.AssignedRideLeavesPending | src/components/call-center/RideDispatchPanel.tsx:25-26 | an assigned ride is no longer pending |
| CallCenterAuth.Normalise | src/components/call-center/CallCenterAuth.tsx:72-77 | the session user has `user_id` = id and missing dates defaulted to now |
| CallCenterAuth.LookUp | src/components/call-center/CallCenterAuth.tsx:41-46 | a found user is an active user with exactly this email |
| CallCenterAuth.LoginForm.constructor | src/components/call-center/CallCenterAuth.tsx:28-30 | empty email, not loading, no error |
| CallCenterAuth.LoginForm.HandleLogin | src/components/call-center/CallCenterAuth.tsx:34-91 | the handler's writes and user equal `Login`; the error shows access denied exactly on failure; loading is cleared on every path |
| CallCenterAuth.LoginNeedsOneActiveUser | src/components/call-center/CallCenterAuth.tsx:41-51 | login succeeds exactly when the lookup works and exactly one active user has this email; a refusal writes nothing |
| CallCenterAuth.InactiveRefused | src/components/call-center/CallCenterAuth.tsx:41-51 | when no user with this email is active (or none has it), access is denied and nothing is written |
| CallCenterAuth.LoginWrites | src/components/call-center/CallCenterAuth.tsx:54-66 | success updates `last_login` for that user only and appends a `login` log entry with the email; the session user has `user_id` = id |
| CommunicationPanel.MyChannelsSelection | src/components/call-center/CommunicationPanel.tsx:33-40 | exactly the user's channels, newest first |
| CommunicationPanel.TabsPartition | src/components/call-center/CommunicationPanel.tsx:56-115 | active and history lists split the channels; the badge counts the active ones |
| CommunicationPanel.TypeLabel | src/components/call-center/CommunicationPanel.tsx:89 | the type with its first character upper-cased, followed by " Call" |
| CommunicationPanel.CustomerName | src/components/call-center/CommunicationPanel.tsx:94 | the driver's name when there is one, never empty |
| Notifications.NotificationQueryShape | src/pages/NotificationsManagement.tsx:27-48 | at most 100 matching notifications, newest first; every match is listed when at most 100 match |
| Notifications.Badge | src/pages/NotificationsManagement.tsx:149-160 | alert, info and success have their own badge; any other type shows general |
| Notifications.NotificationStats | src/pages/NotificationsManagement.tsx:171-176 | unread, alert and broadcast counts are each at most the total |
| Notifications.CreateForm.constructor | src/pages/NotificationsManagement.tsx:18-24 | the form is closed and empty with type `general` |
| Notifications.CreateForm.HandleCreateNotification | src/pages/NotificationsManagement.tsx:64-110 | the handler's writes equal `Create`; on success the form resets and closes |
| Notifications.HandleMarkAsRead | src/pages/NotificationsManagement.tsx:112-134 | the handler's writes equal `MarkAsRead` |
| Notifications.CreateEffects | src/pages/NotificationsManagement.tsx:65-81 | a blank title or message inserts nothing; otherwise one unread notification is added, an empty target is stored as a broadcast, and the statistics grow to match |
| Notifications.MarkAsReadIdempotent | src/pages/NotificationsManagement.tsx:112-117 | marking as read sets `is_read` on the rows with that id and leaves every other row as it was; marking twice is marking once |
| Wallet.TransactionQuery | src/pages/WalletTransactions.tsx:18-43 | at most 200 transactions, newest first |
| Wallet.TransactionQueryMatches | src/pages/WalletTransactions.tsx:18-43 | every listed transaction is stored and matches the search and the filters; when at most 200 match they are all listed |
| Wallet.CreditDebitDisjoint | src/pages/WalletTransactions.tsx:113-116 | no type is both a credit and a debit type |
| Wallet.TotalsByTransaction | src/pages/WalletTransactions.tsx:112-117 | each transaction adds its amount to credits or debits only when completed and of that kind |
| Wallet.WalletBalanceByDriver | src/pages/WalletTransactions.tsx:118 | each driver adds its balance, a missing balance counting 0 |
| Wallet.Sign | src/pages/WalletTransactions.tsx:249 | `+` exactly for credit types, `-` otherwise |
| Wallet.AmountColour | src/pages/WalletTransactions.tsx:73-86 | green exactly for credit types, red exactly for debit types, gray otherwise |
| Wallet.SignAndColour | src/pages/WalletTransactions.tsx:249 | an unknown type shows `-` in gray |
| Passengers.PassengerQuerySelection | src/pages/PassengersManagement.tsx:17-34 | a passenger is listed exactly when name, phone or email holds the term; an empty term lists everybody |
| Passengers.StatsShape | src/pages/PassengersManagement.tsx:37-61 | no stats without a selected phone; otherwise the trips are the passenger's rides, completed at most total, and the recent trips are the first five of the newest-first list |
| Passengers.TotalSpentByRide | src/pages/PassengersManagement.tsx:50-51 | money spent is the sum of fares (missing counts 0) of the passenger's completed rides, whatever their order |
| Passengers.NewRideEffect | src/pages/PassengersManagement.tsx:42-55 | one more ride adds one trip, and adds its fare to the money spent only when completed |
| Passengers.StringGreaterTransitive | src/pages/PassengersManagement.tsx:75 | the string comparison used for the cutoff is transitive |
| Passengers.ActiveCount | src/pages/PassengersManagement.tsx:73-76 | the active count is at most the number of passengers |
| Passengers.ActiveCountMonotone | src/pages/PassengersManagement.tsx:75 | a later cutoff never counts more passengers |
| Passengers.NotActiveAtCutoff | src/pages/PassengersManagement.tsx:75 | a passenger created exactly at the cutoff, or with no creation time, is not active |
| TripMonitoring.TripQuery | src/pages/TripMonitoring.tsx:17-57 | at most 100 trips, newest first |
| TripMonitoring.TripQuerySelection | src/pages/TripMonitoring.tsx:25-52 | every listed trip matches search, status and date filters; when at most 100 match they are all listed |
| TripMonitoring.DateFilterAll | src/pages/TripMonitoring.tsx:50-52 | the `all` date filter puts no bound on the creation time; any other one drops undated rides |
| TripMonitoring.StatusBadge | src/pages/TripMonitoring.tsx:61-72 | every status shows one of four badges |
| TripMonitoring.BadgeCases | src/pages/TripMonitoring.tsx:61-72 | completed, active and cancelled have distinct badges; every other status shows Pending |
| TripMonitoring.FormatDurationMinutes | src/pages/TripMonitoring.tsx:83-89 | `Ongoing` without an end; otherwise the whole minutes elapsed followed by " min", readable back to that number |
| TripMonitoring.StatsBounded | src/pages/TripMonitoring.tsx:91-94 | active plus completed trips are at most the total |
| TripMonitoring.EarningsOnlyFromCompleted | src/pages/TripMonitoring.tsx:95 | a trip adds its fare (missing counts 0) to earnings only when completed |
| TripMonitoring.StatsIgnoreOrder | src/pages/TripMonitoring.tsx:91-96 | the four figures depend only on which trips are listed, not their order |
| CustomerSupport.FilteredCasesSelection | src/components/call-center/CustomerSupportPanel.tsx:83-87 | a case is shown exactly when it matches; order is kept; an empty term shows all |
| CustomerSupport.TextMatchIgnoresCase | src/components/call-center/CustomerSupportPanel.tsx:83-87 | name and subject match ignoring case; a phone match is exact |
| CustomerSupport.PriorityColour | src/components/call-center/CustomerSupportPanel.tsx:55-62 | gray exactly for priorities other than high, normal and low |
| CustomerSupport.StatusColour | src/components/call-center/CustomerSupportPanel.tsx:64-72 | gray exactly for statuses other than the four known ones |
| CustomerSupport.ColoursDistinct | src/components/call-center/CustomerSupportPanel.tsx:55-72 | known statuses get distinct colours, and so do known priorities |
| StatusBadge.StatusConfig | src/components/StatusBadge.tsx:12-30 | an unknown status shows its own text in gray; a known one never shows gray or its raw text |
| StatusBadge.KnownConfigs | src/components/StatusBadge.tsx:14-23 | each of the seven known statuses has its fixed label and colour |
| StatusBadge.SharedColours | src/components/StatusBadge.tsx:16-26 | active and approved share green, cancelled and rejected share red; the literal `default` falls back |

## Left out

- Database client, HTTP and CORS handling of the server function, toasts, rendering, polling intervals and local storage: only the resulting row writes and component state are modelled.
- Row ids are drawn from a counter rather than random uuids; timestamps are integer milliseconds.
- A failure of the database is a boolean parameter of the handler. The time is a parameter. The random draw is a real parameter in [0, 1).
- Concurrent handlers and re-fetches are not modelled; each handler runs alone.
- `ILIKE` wildcards (`%`, `_`) and commas inside a search term are taken literally. Case folding covers ASCII letters only.
- `maxLength` on the code field counts UTF-16 code units; the model counts characters.
- Date and number formatting for display (`toLocaleDateString`, `toFixed`) is not modelled.
- The passenger list's ordering by creation time is not modelled. Its creation time is kept as the text that the 30-day count compares.
- The "new this month" count on the passengers page is not modelled.
- The passengers table is a parameter (`seq<Passenger>`), not part of `Db`, since no handler writes it.
- The start of the trip date range (midnight today, a week back, a month back) is a parameter. The `Date` arithmetic that computes it is not modelled.
- The cutoff of the 30-day active count is a parameter. Its computation with `toISOString` is not modelled.
- `StatusBadge.StatusConfig`: inherited keys of the JavaScript object (such as `toString`) are not modelled.
- The priority and status colour lookups of the ticket pages are not modelled (they are display classes only).
- The CSS capitalisation of the sidebar role label is not modelled.
- `UrgentTicketCard`: reason edits are forwarded unchanged to the parent, which keeps the text. The model passes the reason directly.
- The `auto_assign_ticket` database procedure is not part of this model.
- Driver name ordering in the dispatch panel and the notifications driver list is not modelled.
- `RideDispatch.AvailableDrivers` keeps the drivers in table order, not the query's order by name, so which driver a given draw picks in `RideDispatch.HandleAutoAssign` can differ from the panel's.
- The available-driver cards of the dispatch panel (vehicle and plate text, the fixed rating and distance, the balance or 0) are display only and not modelled; drivers have no vehicle columns here.
- Most insert and update results the handlers do not check are still modelled as succeeding: the activity-log inserts (`src/components/call-center/emergency/hooks/useEscalationActions.ts:44-55`, `src/components/call-center/TicketManagement.tsx:105-111` and `:182-188`, `src/components/call-center/CallCenterDashboard.tsx:76-82`, `src/components/call-center/AgentQueue.tsx:114-120`, `src/components/call-center/CallCenterAuth.tsx:60-66`) and the `last_login` update (`src/components/call-center/CallCenterAuth.tsx:54-57`). The handler reports success whether or not such a write happened; `EscalationActions.CreateLogs`, `TicketManagement.AssignTakesOver`, `TicketManagement.ResolveMarks`, `AgentQueue.AcceptLeavesQueue` and `CallCenterAuth.LoginWrites` state the case where it did.
- Fares, wallet amounts, earnings and spend totals are JavaScript doubles; the model uses exact reals, so sums have no rounding.
- Database column defaults are not modelled, except `created_at` of a new escalation, notification or admin profile, which is the time of the call. Activity-log rows carry no creation time here.
- The Manual Assign button of the dispatch panel has no click handler in `src/components/call-center/RideDispatchPanel.tsx:193-199`, so `handleManualAssign` is never reached. `RideDispatch.HandleManualAssign` models the handler itself.
- `CallCenterAuth.Normalise`: the session user keeps the `last_login` read before the update, not the new value.
- The server function's explicit `null` role is treated like a missing role.

Where the written requirements and the code differ, the model follows the code:
- OTP verification does not check the escalation's status, and reports success for a wrong code.
- Resolving works from any status.
- Assigning a ticket does not check an existing assignment.
- Every response sets the ticket in progress, even a resolved one.
- No role is checked on the server side.
- The call-centre `admin` role can manage no admin profile in the admin panel (the permission test compares against `root_admin` and `supervisor` only).

## Findings

| source | as written | input that shows it | evidently intended | confidence | as-written member | corrected member |
|---|---|---|---|---|---|---|
| src/components/call-center/ActiveCallsPanel.tsx:48-55 | below one hour the call duration is `M:00`, putting minutes where hours go | a wait of 5 minutes and a wait of 5 hours both show `5:00` | always `H:MM` with zero-padded minutes (`0:05` for five minutes) | not executed | ActiveCalls.DurationAsWrittenAmbiguous | ActiveCalls.DurationRoundTrip |

The panel's calls (`ActiveCalls.ActiveCallsMapping`) show the label as written, as the code does; `ActiveCalls.Duration` is the corrected label, and `ActiveCalls.DurationAgreesFromAnHour` says where the two coincide.
