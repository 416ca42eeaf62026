# MediTurn appointment booking, modelled and verified in Dafny

MediTurn is an Android app for booking medical appointments. It ships in two
versions. The first app version (`app/`) uses an in-memory catalog and store.
The mobile app (`mobile/`) can read from a local database, from a REST API, or
from both (the "hybrid" mode).

This project models the sequential logic beneath the user interface. It
proves what each piece promises:

- the doctor catalog: lookup by id, search by specialty, name and
  telehealth;
- the appointment store: append, cancel by id, reschedule;
- the split into the upcoming and past tabs;
- booking: the three field validators, the combined check, and
  `bookAppointment`, which appends exactly one CONFIRMED appointment or
  changes nothing in the store;
- the mobile search screen: its eight filter fields, the active-filter count,
  the specialty chips and the price limit;
- the remote search, a chain of guarded filters;
- the DTO conversions to and from the API format, with their default values;
- the Room type converters;
- the data-source switch and the unified repositories that dispatch on it;
- the smaller screens: detail, confirmation, home, profile;
- the navigation routes.

## Conventions

- **Dates** are values (`Model.Date`) that are compared only for equality.
- **Platform services** are function fields of `Dto.Platform`, passed as
  parameters. These are date parsing and formatting, the decimal parse of a
  price, and the current date.
- **Generated ids** take the clock reading as a `stamp` string parameter.
- **Date text**: `Date.toString()` is a `dateText` parameter.
- **Flows**: a Flow is the sequence of the lists it emits. The local and the
  remote sources each emit one list. The mobile home screen's subscription
  is a loop over a finite sequence of emissions.
- **Fetches**: an HTTP fetch is a `RemoteDoctors.Fetch`. It is either an
  answer (success flag, code, message, optional body) or a thrown exception
  with its message.
- **Ignore-case comparison** folds A–Z and the Latin-1 upper-case letters
  (U+00C0–U+00DE except U+00D7) to lower case.
- **Blank and trim** use the JVM whitespace set.
- **Prices** are `real`.
- **The doctor shape** is the one of `SampleData.kt` and the DTOs: an enum
  specialty and a `Date` for the next slot.
  - The first app version's `Doctor` record holds the specialty as a
    string, and its `searchBySpecialty` compares that string ignoring case.
  - Its screens show and select specialties by display name.
  - So `DoctorRepository.SearchBySpecialty` compares the display name,
    ignoring case.
- **The appointment shape** uses one `Date`. The first app version's
  `Appointment` record has a date string and a time string instead.

Each imperative source class is a Dafny `class`, and its methods carry
`modifies` clauses. Their postconditions give the new state in terms of
specification functions. The properties of those functions are proved as
lemmas.

## Model

| member | source | states |
|---|---|---|
| Model.SpecialtyValueOf | app/src/main/java/com/tecsup/mediturn/data/model/Specialty.kt:4-10 | `Specialty.valueOf`: a constant is returned exactly when the name is one of the six constant names, and its name is the argument |
| Model.GetAll | app/src/main/java/com/tecsup/mediturn/data/model/Specialty.kt:15-17 | `getAll` lists six pairwise different specialties, the one at position i having ordinal i (declaration order) |
| Model.GetAllComplete | app/src/main/java/com/tecsup/mediturn/data/model/Specialty.kt:15-17 | every specialty occurs in `getAll` |
| Model.GetDisplayNames | app/src/main/java/com/tecsup/mediturn/data/model/Specialty.kt:20-22 | `getDisplayNames` is `getAll` mapped to display names, position by position |
| Model.DisplayNameInjective | app/src/main/java/com/tecsup/mediturn/data/model/Specialty.kt:4-10 | no two specialties share a display name (`Model.DisplayName`, the constructor argument of each constant) |
| Model.Color | app/src/main/java/com/tecsup/mediturn/data/model/Specialty.kt:4-10 | every specialty colour is an opaque ARGB value (alpha 0xFF) |
| Model.ConsultationTypeValueOf | app/src/main/java/com/tecsup/mediturn/data/model/Appointment.kt:13-16 | `ConsultationType.valueOf` succeeds exactly on the two constant names |
| Model.StatusValueOf | app/src/main/java/com/tecsup/mediturn/data/model/Appointment.kt:18-23 | `AppointmentStatus.valueOf` succeeds exactly on the four constant names |
| Converters.FromTimestamp | app/src/main/java/com/tecsup/mediturn/data/local/Converters.kt:13 | null maps to null and nothing else does |
| Converters.DateToTimestamp | app/src/main/java/com/tecsup/mediturn/data/local/Converters.kt:16 | null maps to null and nothing else does |
| Converters.TimestampRoundTrip | app/src/main/java/com/tecsup/mediturn/data/local/Converters.kt:13-16 | date to timestamp and back is the identity in both directions |
| Converters.FromSpecialty | app/src/main/java/com/tecsup/mediturn/data/local/Converters.kt:19 | the written `name` is one that `Specialty.valueOf` reads back as the same constant |
| Converters.FromConsultationType | app/src/main/java/com/tecsup/mediturn/data/local/Converters.kt:25 | the written `name` is one that `ConsultationType.valueOf` reads back as the same constant |
| Converters.FromAppointmentStatus | app/src/main/java/com/tecsup/mediturn/data/local/Converters.kt:31 | the written `name` is one that `AppointmentStatus.valueOf` reads back as the same constant |
| Converters.ToSpecialty | app/src/main/java/com/tecsup/mediturn/data/local/Converters.kt:22 | succeeds exactly on a constant name and then inverts `fromSpecialty`; otherwise fails with the `valueOf` error naming the enum's full class name |
| Converters.ToConsultationType | app/src/main/java/com/tecsup/mediturn/data/local/Converters.kt:28 | succeeds exactly on a constant name and then inverts `fromConsultationType` |
| Converters.ToAppointmentStatus | app/src/main/java/com/tecsup/mediturn/data/local/Converters.kt:34 | succeeds exactly on a constant name and then inverts `fromAppointmentStatus` |
| Converters.EnumRoundTrips | app/src/main/java/com/tecsup/mediturn/data/local/Converters.kt:19-34 | for all three enums, reading back a written name gives the original constant |
| Converters.SpecialtyNameInjective | app/src/main/java/com/tecsup/mediturn/data/local/Converters.kt:19 | distinct specialties are written as distinct strings |
| Converters.UnknownNamesFail | app/src/main/java/com/tecsup/mediturn/data/local/Converters.kt:22-34 | a lower-case name, the empty string and a misspelt status are rejected |
| DoctorRepository.GetDoctorById | app/src/main/java/com/tecsup/mediturn/data/repository/DoctorRepository.kt:18-20 | a found doctor is in the catalog with that id; null exactly when no catalog doctor has the id; otherwise the first one with it |
| DoctorRepository.GetAllDoctors | app/src/main/java/com/tecsup/mediturn/data/repository/DoctorRepository.kt:11-13 | the catalog has six doctors, no two with the same id |
| DoctorRepository.SearchBySpecialty | app/src/main/java/com/tecsup/mediturn/data/repository/DoctorRepository.kt:25-30 | "Todos" gives the whole catalog; any other label keeps exactly the doctors whose specialty equals it ignoring case, in catalog order |
| DoctorRepository.SearchByName | app/src/main/java/com/tecsup/mediturn/data/repository/DoctorRepository.kt:35-40 | a blank query gives the whole catalog; otherwise exactly the doctors whose name contains the query ignoring case, in catalog order |
| DoctorRepository.FilterByTelehealth | app/src/main/java/com/tecsup/mediturn/data/repository/DoctorRepository.kt:45-48 | false gives the whole catalog; true keeps exactly the telehealth doctors, in catalog order |
| DoctorRepository.LowerIdempotent | app/src/main/java/com/tecsup/mediturn/data/repository/DoctorRepository.kt:28 | the case fold used for ignore-case comparison is idempotent |
| DoctorRepository.FoundByOwnNameAndSpecialty | app/src/main/java/com/tecsup/mediturn/data/repository/DoctorRepository.kt:25-40 | each catalog doctor is found by its own name and by its own specialty label |
| DoctorRepository.CardiologyExample | app/src/main/java/com/tecsup/mediturn/data/repository/DoctorRepository.kt:25-30 | "cardiología" finds exactly doc_1 |
| DoctorRepository.AllLabelIsCaseSensitive | app/src/main/java/com/tecsup/mediturn/data/repository/DoctorRepository.kt:26 | "todos" is not the all-label and matches no doctor |
| DoctorRepository.TelehealthExample | app/src/main/java/com/tecsup/mediturn/data/repository/DoctorRepository.kt:45-48 | the sample telehealth doctors are doc_1, doc_2 and doc_4, in that order |
| DoctorRepository.LookupExamples | app/src/main/java/com/tecsup/mediturn/data/repository/DoctorRepository.kt:18-20 | doc_3 is found and doc_7 is not |
| AppointmentStore.CancelById | app/src/main/java/com/tecsup/mediturn/data/repository/AppointmentRepository.kt:24-31 | cancelling never changes the number of appointments |
| AppointmentStore.CancelAtFirstMatch | app/src/main/java/com/tecsup/mediturn/data/repository/AppointmentRepository.kt:24-31 | the result is the list with the first appointment of that id set to CANCELLED, or the list itself when there is none |
| AppointmentStore.CancelUnknownId | app/src/main/java/com/tecsup/mediturn/data/repository/AppointmentRepository.kt:27 | an unknown id leaves the list unchanged |
| AppointmentStore.CancelKnownId | app/src/main/java/com/tecsup/mediturn/data/repository/AppointmentRepository.kt:27-30 | for a known id only the first match changes, and only its status |
| AppointmentStore.CancelIdempotent | app/src/main/java/com/tecsup/mediturn/data/repository/AppointmentRepository.kt:24-31 | cancelling twice equals cancelling once |
| AppointmentStore.RescheduleById | mobile/app/src/main/java/com/tecsup/mediturn/data/local/dao/AppointmentDao.kt:53-54 | same length; every row with the id gets the new date and nothing else changes |
| AppointmentStore.AppointmentRepository.constructor | app/src/main/java/com/tecsup/mediturn/data/repository/AppointmentRepository.kt:8-10 | the store starts with the sample appointments |
| AppointmentStore.AppointmentRepository.GetAllAppointments | app/src/main/java/com/tecsup/mediturn/data/repository/AppointmentRepository.kt:12-14 | returns the current contents and changes nothing |
| AppointmentStore.AppointmentRepository.GetAppointmentById | app/src/main/java/com/tecsup/mediturn/data/repository/AppointmentRepository.kt:16-18 | the first appointment with the id, null exactly when there is none |
| AppointmentStore.AppointmentRepository.AddAppointment | app/src/main/java/com/tecsup/mediturn/data/repository/AppointmentRepository.kt:20-22 | appends the appointment at the end |
| AppointmentStore.AppointmentRepository.CancelAppointment | app/src/main/java/com/tecsup/mediturn/data/repository/AppointmentRepository.kt:24-31 | the contents become `CancelById` of the old contents |
| AppointmentStore.AppointmentRepository.RescheduleAppointment | mobile/app/src/main/java/com/tecsup/mediturn/data/local/dao/AppointmentDao.kt:53-54 | the contents become `RescheduleById` of the old contents |
| Appointments.Upcoming | mobile/app/src/main/java/com/tecsup/mediturn/ui/screens/appointments/AppointmentsViewModel.kt:28-43 | exactly the CONFIRMED and PENDING appointments, in repository order |
| Appointments.Past | mobile/app/src/main/java/com/tecsup/mediturn/ui/screens/appointments/AppointmentsViewModel.kt:28-43 | exactly the COMPLETED and CANCELLED appointments, in repository order |
| Appointments.TabsPartition | mobile/app/src/main/java/com/tecsup/mediturn/ui/screens/appointments/AppointmentsViewModel.kt:28-43 | the two tabs together hold every appointment once: multisets add up to the whole and do not overlap |
| Appointments.CancelMovesToPast | app/src/main/java/com/tecsup/mediturn/ui/screens/appointments/AppointmentsViewModel.kt:39-42 | after cancelling a known id the cancelled appointment is in the past tab and not in the upcoming one |
| Appointments.UpcomingNotGrownByCancel | app/src/main/java/com/tecsup/mediturn/ui/screens/appointments/AppointmentsViewModel.kt:39-42 | cancelling never makes the upcoming tab longer |
| Appointments.FilterSameCount | mobile/app/src/main/java/com/tecsup/mediturn/ui/screens/appointments/AppointmentsViewModel.kt:28-43 | two lists that agree position by position on the tab test give tabs of equal size |
| Appointments.RescheduleKeepsTabSizes | mobile/app/src/main/java/com/tecsup/mediturn/ui/screens/appointments/AppointmentsViewModel.kt:54-57 | rescheduling leaves both tab sizes unchanged |
| Appointments.SampleTabs | app/src/main/java/com/tecsup/mediturn/data/local/SampleData.kt:110-143 | with the sample data the first three appointments are upcoming and the fourth is past |
| MobileAppointments.AppointmentsViewModel.constructor | mobile/app/src/main/java/com/tecsup/mediturn/ui/screens/appointments/AppointmentsViewModel.kt:11-26 | tab 0, and both lists already match the repository |
| MobileAppointments.AppointmentsViewModel.LoadAppointments | mobile/app/src/main/java/com/tecsup/mediturn/ui/screens/appointments/AppointmentsViewModel.kt:28-43 | only the two lists change, and they become the split of the repository list |
| MobileAppointments.AppointmentsViewModel.OnTabSelected | mobile/app/src/main/java/com/tecsup/mediturn/ui/screens/appointments/AppointmentsViewModel.kt:45-47 | only the tab changes |
| MobileAppointments.AppointmentsViewModel.CancelAppointment | mobile/app/src/main/java/com/tecsup/mediturn/ui/screens/appointments/AppointmentsViewModel.kt:49-52 | the repository is cancelled by id, the tab is kept and the lists are in step again |
| MobileAppointments.AppointmentsViewModel.RescheduleAppointment | mobile/app/src/main/java/com/tecsup/mediturn/ui/screens/appointments/AppointmentsViewModel.kt:54-57 | the repository is rescheduled by id, the tab is kept and the lists are in step again |
| AppAppointments.AppointmentsViewModel.constructor | app/src/main/java/com/tecsup/mediturn/ui/screens/appointments/AppointmentsViewModel.kt:10-26 | a fresh store with the samples, tab 0, not loading, lists in step |
| AppAppointments.AppointmentsViewModel.LoadAppointments | app/src/main/java/com/tecsup/mediturn/ui/screens/appointments/AppointmentsViewModel.kt:28-33 | only the two lists change, and they become the split of the repository list |
| AppAppointments.AppointmentsViewModel.OnTabSelected | app/src/main/java/com/tecsup/mediturn/ui/screens/appointments/AppointmentsViewModel.kt:35-37 | only the tab changes |
| AppAppointments.AppointmentsViewModel.CancelAppointment | app/src/main/java/com/tecsup/mediturn/ui/screens/appointments/AppointmentsViewModel.kt:39-42 | the repository is cancelled by id, tab and loading flag kept, lists in step |
| AppAppointments.AppointmentsViewModel.RescheduleAppointment | app/src/main/java/com/tecsup/mediturn/ui/screens/appointments/AppointmentsViewModel.kt:44-47 | the repository is rescheduled to the date built from the two strings, tab and loading flag kept, lists in step |
| Booking.ValidateReason | app/src/main/java/com/tecsup/mediturn/ui/screens/booking/BookingViewModel.kt:61-67 | an error exactly when the untrimmed length exceeds 500 or the reason is non-blank with a trimmed length below 5, lengths in UTF-16 code units as Kotlin counts them; the too-long message takes precedence |
| Booking.TrimOfUnpadded | app/src/main/java/com/tecsup/mediturn/ui/screens/booking/BookingViewModel.kt:64 | a reason without leading or trailing whitespace is its own trim |
| Booking.UnpaddedReasonValid | app/src/main/java/com/tecsup/mediturn/ui/screens/booking/BookingViewModel.kt:61-67 | any reason of 5 to 500 UTF-16 code units without surrounding whitespace is valid, so exactly 500 letters is valid |
| Booking.TrimmedReasonValid | app/src/main/java/com/tecsup/mediturn/ui/screens/booking/BookingViewModel.kt:61-67 | a non-blank reason that trimming leaves unchanged and that is 5 to 500 code units long is valid |
| Booking.SurrogatePairCountsTwice | app/src/main/java/com/tecsup/mediturn/ui/screens/booking/BookingViewModel.kt:61-67 | "abc" followed by one emoji beyond the Basic Multilingual Plane is valid: Kotlin counts 5 units |
| Booking.SupplementaryReasonTooLong | app/src/main/java/com/tecsup/mediturn/ui/screens/booking/BookingViewModel.kt:61-62 | more than 250 supplementary characters are too long, each counting as two units |
| Booking.EmptyReasonValid | app/src/main/java/com/tecsup/mediturn/ui/screens/booking/BookingViewModel.kt:61-67 | the empty reason is valid |
| Booking.PaddedReasonTooShort | app/src/main/java/com/tecsup/mediturn/ui/screens/booking/BookingViewModel.kt:61-67 | " abc " is too short: the minimum is checked on the trimmed text |
| Booking.ValidateTimeSlot | app/src/main/java/com/tecsup/mediturn/ui/screens/booking/BookingViewModel.kt:69-76 | passes exactly when a slot is selected and available, with the two distinct messages otherwise |
| Booking.ValidateConsultationType | app/src/main/java/com/tecsup/mediturn/ui/screens/booking/BookingViewModel.kt:78-88 | passes exactly when a doctor is loaded and telehealth is either not chosen or offered; IN_PERSON with a doctor always passes |
| Booking.AllFieldsValidMeaning | app/src/main/java/com/tecsup/mediturn/ui/screens/booking/BookingViewModel.kt:90-103 | the combined check holds exactly for an available slot, a loaded doctor compatible with the type, and a reason that is blank or at most 500 UTF-16 code units long and at least 5 once trimmed; it implies doctor and slot are present, so the null check at lines 119-125 cannot fire |
| Booking.BookingViewModel.constructor | app/src/main/java/com/tecsup/mediturn/ui/screens/booking/BookingViewModel.kt:16-36 | the default state and a repository holding the samples |
| Booking.BookingViewModel.LoadDoctor | app/src/main/java/com/tecsup/mediturn/ui/screens/booking/BookingViewModel.kt:38-41 | only the doctor changes, to the catalog lookup |
| Booking.BookingViewModel.OnTimeSlotSelected | app/src/main/java/com/tecsup/mediturn/ui/screens/booking/BookingViewModel.kt:43-48 | only the slot and the date text change |
| Booking.BookingViewModel.OnConsultationTypeChanged | app/src/main/java/com/tecsup/mediturn/ui/screens/booking/BookingViewModel.kt:50-52 | only the consultation type changes |
| Booking.BookingViewModel.OnReasonChanged | app/src/main/java/com/tecsup/mediturn/ui/screens/booking/BookingViewModel.kt:54-59 | only the reason and its error change, the error being `validateReason` of the new reason |
| Booking.BookingViewModel.ValidateAllFields | app/src/main/java/com/tecsup/mediturn/ui/screens/booking/BookingViewModel.kt:90-103 | returns true exactly when all three errors are null; writes the three errors and clears the message |
| Booking.BookingViewModel.BookAppointment | app/src/main/java/com/tecsup/mediturn/ui/screens/booking/BookingViewModel.kt:105-147 | on failed validation: returns "", sets the fix-errors message, store unchanged; on success: appends exactly one CONFIRMED appointment with the loaded doctor, the slot's date, the chosen type and the trimmed reason, and returns its id "apt_"+stamp; never loading afterwards |
| Booking.BookingViewModel.ClearError | app/src/main/java/com/tecsup/mediturn/ui/screens/booking/BookingViewModel.kt:149-151 | only the message is cleared |
| MobileDoctorDetail.AfterLoad | mobile/app/src/main/java/com/tecsup/mediturn/ui/screens/detail/DoctorDetailViewModel.kt:31-43 | not loading; the doctor is the lookup answer; a doctor is shown exactly when there is no error, and the error is "Doctor no encontrado" |
| MobileDoctorDetail.DoctorDetailViewModel.constructor | mobile/app/src/main/java/com/tecsup/mediturn/ui/screens/detail/DoctorDetailViewModel.kt:12-16 | doctor null, loading, no error |
| MobileDoctorDetail.DoctorDetailViewModel.LoadDoctor | mobile/app/src/main/java/com/tecsup/mediturn/ui/screens/detail/DoctorDetailViewModel.kt:25-45 | the state becomes the found or the not-found state for the lookup of the id |
| AppDoctorDetail.AfterLoad | app/src/main/java/com/tecsup/mediturn/ui/screens/detail/DoctorDetailViewModel.kt:24-33 | not loading; a shown doctor is in the catalog with that id; null exactly for an unknown id |
| AppDoctorDetail.DoctorDetailViewModel.constructor | app/src/main/java/com/tecsup/mediturn/ui/screens/detail/DoctorDetailViewModel.kt:12-15 | not loading, doctor null |
| AppDoctorDetail.DoctorDetailViewModel.LoadDoctor | app/src/main/java/com/tecsup/mediturn/ui/screens/detail/DoctorDetailViewModel.kt:24-33 | the state becomes `AfterLoad` of the id, whatever it was |
| AppDoctorDetail.LoadTwiceIsLoadOnce | app/src/main/java/com/tecsup/mediturn/ui/screens/detail/DoctorDetailViewModel.kt:24-33 | loading the same id twice leaves the state one load leaves |
| Confirmation.ConfirmationViewModel.constructor | app/src/main/java/com/tecsup/mediturn/ui/screens/confirmation/ConfirmationViewModel.kt:10-19 | appointment null and loading |
| Confirmation.ConfirmationViewModel.LoadAppointment | app/src/main/java/com/tecsup/mediturn/ui/screens/confirmation/ConfirmationViewModel.kt:22-28 | not loading; the appointment is the store's first match, null exactly for an unknown id; the store is unchanged |
| Confirmation.FindsAppendedAppointment | app/src/main/java/com/tecsup/mediturn/ui/screens/confirmation/ConfirmationViewModel.kt:23 | after appending an appointment with a fresh id, looking that id up gives the appointment |
| AppFeaturedHome.HomeViewModel.constructor | app/src/main/java/com/tecsup/mediturn/ui/screens/home/Homeviewmodel.kt:20-22 | construction already holds the first six catalog doctors |
| AppFeaturedHome.HomeViewModel.LoadFeaturedDoctors | app/src/main/java/com/tecsup/mediturn/ui/screens/home/Homeviewmodel.kt:24-27 | the featured list is the catalog's prefix of length min(6, n) |
| AppFeaturedHome.FeaturesWholeSampleCatalog | app/src/main/java/com/tecsup/mediturn/ui/screens/home/Homeviewmodel.kt:25 | the six sample doctors are all featured |
| AppDashboardHome.HomeViewModel.constructor | app/src/main/java/com/tecsup/mediturn/ui/screens/HomeViewModel.kt:20-30 | construction already holds all appointments, the first three doctors and is not loading |
| AppDashboardHome.HomeViewModel.LoadData | app/src/main/java/com/tecsup/mediturn/ui/screens/HomeViewModel.kt:32-45 | all repository appointments with no status filter, the catalog prefix of length min(3, n), not loading; store unchanged |
| MobileHome.HomeViewModel.constructor | mobile/app/src/main/java/com/tecsup/mediturn/ui/screens/home/Homeviewmodel.kt:12-34 | with no emission the list is empty; otherwise it is the first min(6, n) doctors of the latest emission |
| MobileHome.HomeViewModel.OnDoctors | mobile/app/src/main/java/com/tecsup/mediturn/ui/screens/home/Homeviewmodel.kt:30-32 | one emission replaces the featured list by its prefix of length min(6, n) |
| MobileProfile.ProfileViewModel.constructor | mobile/app/src/main/java/com/tecsup/mediturn/ui/screens/profile/ProfileViewModel.kt:11-23 | the fixed default patient `MobileProfile.DefaultPatient` (id "1", Aldy Montoya, with its e-mail and phone), not editing |
| MobileProfile.ProfileViewModel.ToggleEditMode | mobile/app/src/main/java/com/tecsup/mediturn/ui/screens/profile/ProfileViewModel.kt:26-28 | flips the edit flag and keeps the patient |
| MobileProfile.ToggleTwiceRestores | mobile/app/src/main/java/com/tecsup/mediturn/ui/screens/profile/ProfileViewModel.kt:26-28 | toggling twice restores the state |
| AppProfile.ProfileViewModel.constructor | app/src/main/java/com/tecsup/mediturn/ui/screens/profile/ProfileViewModel.kt:10-16 | the current patient, not editing |
| AppProfile.ProfileViewModel.ToggleEditMode | app/src/main/java/com/tecsup/mediturn/ui/screens/profile/ProfileViewModel.kt:19-21 | flips the edit flag and keeps the patient |
| AppProfile.ToggleTwiceRestores | app/src/main/java/com/tecsup/mediturn/ui/screens/profile/ProfileViewModel.kt:19-21 | toggling twice restores the state |
| MobileSearch.CountTrue | mobile/app/src/main/java/com/tecsup/mediturn/ui/screens/search/SearchViewModel.kt:107-114 | the count is at most the number of flags, zero exactly when none is set, full exactly when all are |
| MobileSearch.CountOfFour | mobile/app/src/main/java/com/tecsup/mediturn/ui/screens/search/SearchViewModel.kt:107-114 | the count of four flags is the sum of their 0/1 values |
| MobileSearch.ActiveCountFacts | mobile/app/src/main/java/com/tecsup/mediturn/ui/screens/search/SearchViewModel.kt:107-114 | between 0 and 4; zero exactly with no specialty, no location, no telehealth and no price limit; query and chip do not count |
| MobileSearch.SpecialtyForChip | mobile/app/src/main/java/com/tecsup/mediturn/ui/screens/search/SearchViewModel.kt:122-136 | a chip maps to the specialty with that display name, and to none exactly when no specialty has it |
| MobileSearch.ChipMappingRoundTrip | mobile/app/src/main/java/com/tecsup/mediturn/ui/screens/search/SearchViewModel.kt:122-136 | each display name maps back to its specialty; "Todos" maps to none |
| MobileSearch.ClearedHasNoActiveFilters | mobile/app/src/main/java/com/tecsup/mediturn/ui/screens/search/SearchViewModel.kt:159-166 | after clearing, the active-filter count is zero |
| MobileSearch.RepositoryCriteria | mobile/app/src/main/java/com/tecsup/mediturn/ui/screens/search/SearchViewModel.kt:44-63 | query, specialty and location are passed through; teleconsultation is true exactly when telehealth-only is on, and never false |
| MobileSearch.DisplayedDoctors | mobile/app/src/main/java/com/tecsup/mediturn/ui/screens/search/SearchViewModel.kt:65-69 | no limit keeps the results; a limit keeps exactly those priced within it, in order, each with as many copies as in the results |
| MobileSearch.ShownDoctors | mobile/app/src/main/java/com/tecsup/mediturn/ui/screens/search/SearchViewModel.kt:44-75 | a doctor is shown exactly when it is in the catalog and passes query, specialty, location, telehealth and price |
| MobileSearch.SearchViewModel.Doctors | mobile/app/src/main/java/com/tecsup/mediturn/ui/screens/search/SearchViewModel.kt:44-75 | the `filteredDoctors` list: a doctor is in it exactly when the repository search returns it and it is within the price limit, if one is set |
| MobileSearch.SearchViewModel.constructor | mobile/app/src/main/java/com/tecsup/mediturn/ui/screens/search/SearchViewModel.kt:34-41 | all eight fields start at their defaults |
| MobileSearch.SearchViewModel.GetActiveFiltersCount | mobile/app/src/main/java/com/tecsup/mediturn/ui/screens/search/SearchViewModel.kt:107-114 | the four guarded increments give the number of active filters |
| MobileSearch.SearchViewModel.OnSearchQueryChange | mobile/app/src/main/java/com/tecsup/mediturn/ui/screens/search/SearchViewModel.kt:117-119 | only the query changes |
| MobileSearch.SearchViewModel.OnFilterSelected | mobile/app/src/main/java/com/tecsup/mediturn/ui/screens/search/SearchViewModel.kt:122-136 | the chip and the specialty it maps to change, nothing else |
| MobileSearch.SearchViewModel.SelectSpecialty | mobile/app/src/main/java/com/tecsup/mediturn/ui/screens/search/SearchViewModel.kt:139-141 | only the specialty changes |
| MobileSearch.SearchViewModel.SelectLocation | mobile/app/src/main/java/com/tecsup/mediturn/ui/screens/search/SearchViewModel.kt:144-146 | only the location changes |
| MobileSearch.SearchViewModel.ToggleTelehealth | mobile/app/src/main/java/com/tecsup/mediturn/ui/screens/search/SearchViewModel.kt:149-151 | only the telehealth flag flips |
| MobileSearch.SearchViewModel.SetMaxPrice | mobile/app/src/main/java/com/tecsup/mediturn/ui/screens/search/SearchViewModel.kt:154-156 | only the price limit changes |
| MobileSearch.SearchViewModel.ClearFilters | mobile/app/src/main/java/com/tecsup/mediturn/ui/screens/search/SearchViewModel.kt:159-166 | query, chip and all four filters are reset, nothing else changes |
| MobileSearch.ToggleTwiceRestores | mobile/app/src/main/java/com/tecsup/mediturn/ui/screens/search/SearchViewModel.kt:149-151 | toggling telehealth twice restores the state |
| AppSearch.SearchViewModel.constructor | app/src/main/java/com/tecsup/mediturn/ui/screens/search/SearchViewModel.kt:12-28 | not loading, empty query, chip "Todos", the whole catalog |
| AppSearch.SearchViewModel.OnSearchQueryChange | app/src/main/java/com/tecsup/mediturn/ui/screens/search/SearchViewModel.kt:30-33 | the query is stored and the list becomes the name search for it |
| AppSearch.SearchViewModel.OnFilterSelected | app/src/main/java/com/tecsup/mediturn/ui/screens/search/SearchViewModel.kt:35-37 | only the chip changes |
| AppSearch.SearchViewModel.LoadDoctors | app/src/main/java/com/tecsup/mediturn/ui/screens/search/SearchViewModel.kt:39-48 | the whole catalog, not loading |
| AppSearch.SearchViewModel.SearchDoctors | app/src/main/java/com/tecsup/mediturn/ui/screens/search/SearchViewModel.kt:50-55 | only the list changes, to the name search |
| Dto.TimeSlotToDomain | mobile/app/src/main/java/com/tecsup/mediturn/data/remote/dto/TimeSlotDto.kt:28-40 | id and availability copied; the parsed date, or now when it does not parse |
| Dto.TimeSlotDropsDoctor | mobile/app/src/main/java/com/tecsup/mediturn/data/remote/dto/TimeSlotDto.kt:28-40 | the doctor id never influences the domain slot |
| Dto.PatientToDomain | mobile/app/src/main/java/com/tecsup/mediturn/data/remote/dto/PatientDto.kt:31-45 | text fields copied; an unparseable birth date becomes now |
| Dto.PatientFromDomain | mobile/app/src/main/java/com/tecsup/mediturn/data/remote/dto/PatientDto.kt:51-61 | text fields copied; the birth date written with `formatDate` |
| Dto.PatientRoundTrip | mobile/app/src/main/java/com/tecsup/mediturn/data/remote/dto/PatientDto.kt:31-61 | writing and reading back keeps the text fields, and the whole patient when the date format round-trips |
| Dto.ImageResourceForDoctor | mobile/app/src/main/java/com/tecsup/mediturn/data/remote/dto/DoctorDto.kt:82-92 | the resource is one of the six images |
| Dto.ImageIsFirstSurname | mobile/app/src/main/java/com/tecsup/mediturn/data/remote/dto/DoctorDto.kt:82-92 | the image is that of the first surname in the list mentioned in the name ignoring case, and the first image when none is |
| Dto.SlotsToDomain | mobile/app/src/main/java/com/tecsup/mediturn/data/remote/dto/DoctorDto.kt:74 | absent slots give the empty list; otherwise each slot is converted, one for one |
| Dto.DoctorToDomain | mobile/app/src/main/java/com/tecsup/mediturn/data/remote/dto/DoctorDto.kt:52-76 | fields copied; the specialty is the named one, or GENERAL_MEDICINE for an unknown name; the next slot is the parsed date, or now when unparseable; the price is the parsed one, or 0; image and slots as above |
| Dto.DecodesNamedSpecialty | mobile/app/src/main/java/com/tecsup/mediturn/data/remote/dto/DoctorDto.kt:58-62 | a known specialty name decodes to that specialty |
| Dto.DecodeConsultationType | mobile/app/src/main/java/com/tecsup/mediturn/data/remote/dto/AppointmentDto.kt:56-60 | the named type, or IN_PERSON for an unknown name |
| Dto.DecodeStatus | mobile/app/src/main/java/com/tecsup/mediturn/data/remote/dto/AppointmentDto.kt:62-66 | the named status, or PENDING for an unknown name |
| Dto.AppointmentToDomain | mobile/app/src/main/java/com/tecsup/mediturn/data/remote/dto/AppointmentDto.kt:45-68 | fails exactly when the doctor is null; otherwise id, reason, doctor, type and status are decoded as above, and the date is the parsed one, or now when unparseable |
| Dto.AppointmentFromDomain | mobile/app/src/main/java/com/tecsup/mediturn/data/remote/dto/AppointmentDto.kt:74-86 | id, reason, doctor id and patient id set, nested doctor and patient null, enum names written, the date written with `formatDateTime` |
| Dto.EnumNamesRoundTrip | mobile/app/src/main/java/com/tecsup/mediturn/data/remote/dto/AppointmentDto.kt:56-86 | the written type and status decode back to the originals |
| Dto.WriteDtoIsNotReadable | mobile/app/src/main/java/com/tecsup/mediturn/data/remote/dto/AppointmentDto.kt:50 | a DTO built by `fromDomain` never converts back, because it has no nested doctor |
| Dto.AppointmentRoundTrip | mobile/app/src/main/java/com/tecsup/mediturn/data/remote/dto/AppointmentDto.kt:45-86 | with a nested doctor that decodes to the original and a round-tripping date format, writing and reading back gives the appointment |
| RemoteDoctors.Received | mobile/app/src/main/java/com/tecsup/mediturn/data/repository/RemoteDoctorRepository.kt:21-34 | a body is received exactly on a successful answer with a body |
| RemoteDoctors.DecodeAll | mobile/app/src/main/java/com/tecsup/mediturn/data/repository/RemoteDoctorRepository.kt:25-27 | each DTO is converted, one for one |
| RemoteDoctors.GetAllDoctorsFromApi | mobile/app/src/main/java/com/tecsup/mediturn/data/repository/RemoteDoctorRepository.kt:21-34 | the decoded list, or the empty list on failure |
| RemoteDoctors.GetDoctorByIdFromApi | mobile/app/src/main/java/com/tecsup/mediturn/data/repository/RemoteDoctorRepository.kt:41-53 | the decoded doctor, null exactly on failure |
| RemoteDoctors.GetDoctorsResult | mobile/app/src/main/java/com/tecsup/mediturn/data/repository/RemoteDoctorRepository.kt:106-117 | success exactly with a received body; an exception gives its message; an unsuccessful answer gives "Error code: message" |
| RemoteDoctors.SearchResult | mobile/app/src/main/java/com/tecsup/mediturn/data/repository/RemoteDoctorRepository.kt:60-100 | exactly the doctors passing all active criteria, in fetched order, each passing doctor with as many copies as were fetched |
| RemoteDoctors.Step | mobile/app/src/main/java/com/tecsup/mediturn/data/repository/RemoteDoctorRepository.kt:69-92 | an active filter step narrows the result by one more criterion, an inactive one leaves it |
| RemoteDoctors.QueryStep | mobile/app/src/main/java/com/tecsup/mediturn/data/repository/RemoteDoctorRepository.kt:72-76 | the query filter runs only for a non-blank query |
| RemoteDoctors.SpecialtyStep | mobile/app/src/main/java/com/tecsup/mediturn/data/repository/RemoteDoctorRepository.kt:78-80 | the specialty filter runs only when a specialty is given |
| RemoteDoctors.CityStep | mobile/app/src/main/java/com/tecsup/mediturn/data/repository/RemoteDoctorRepository.kt:82-86 | the location filter runs only when a city is given |
| RemoteDoctors.TeleconsultationStep | mobile/app/src/main/java/com/tecsup/mediturn/data/repository/RemoteDoctorRepository.kt:88-90 | the telehealth filter runs only for true |
| RemoteDoctors.ApplyFilters | mobile/app/src/main/java/com/tecsup/mediturn/data/repository/RemoteDoctorRepository.kt:69-92 | the chain of guarded reassignments computes `SearchResult` |
| RemoteDoctors.SearchDoctors | mobile/app/src/main/java/com/tecsup/mediturn/data/repository/RemoteDoctorRepository.kt:60-100 | the filtered decoded list, or the empty list on failure |
| RemoteDoctors.NoCriteriaKeepsAll | mobile/app/src/main/java/com/tecsup/mediturn/data/repository/RemoteDoctorRepository.kt:60-100 | with no active criterion the whole list is kept |
| RemoteDoctors.TeleconsultationFalseIsNull | mobile/app/src/main/java/com/tecsup/mediturn/data/repository/RemoteDoctorRepository.kt:88-90 | asking for teleconsultation false filters like not asking |
| RemoteDoctors.ReversedChainSameResult | mobile/app/src/main/java/com/tecsup/mediturn/data/repository/RemoteDoctorRepository.kt:69-92 | the order of the four filters does not matter |
| DataSource.DataSourceConfig.constructor | mobile/app/src/main/java/com/tecsup/mediturn/data/DataSourceConfig.kt:46 | the default mode is LOCAL_ROOM |
| DataSource.ExactlyOneMode | mobile/app/src/main/java/com/tecsup/mediturn/data/DataSourceConfig.kt:51-67 | exactly one of `isUsingLocalData`, `isUsingRemoteData` and `isUsingHybridMode` holds |
| DataSource.ListRead | mobile/app/src/main/java/com/tecsup/mediturn/data/repository/UnifiedDoctorRepository.kt:60-88 | local, remote, or the remote list unless it is empty and then the local one |
| DataSource.FlowRead | mobile/app/src/main/java/com/tecsup/mediturn/data/repository/UnifiedDoctorRepository.kt:32-54 | the flow version: one list, except nothing at all in hybrid mode with an empty remote list and no DAO |
| DataSource.OneRead | mobile/app/src/main/java/com/tecsup/mediturn/data/repository/UnifiedDoctorRepository.kt:95-112 | a single record: local, remote, or remote unless null and then local |
| DataSource.CollectLast | mobile/app/src/main/java/com/tecsup/mediturn/data/repository/UnifiedDoctorRepository.kt:66-85 | the collect loop leaves the value for the last emission, or the empty list with none |
| DataSource.SyncListRead | mobile/app/src/main/java/com/tecsup/mediturn/data/repository/UnifiedDoctorRepository.kt:60-88 | over a one-list remote flow the synchronous read equals `ListRead` |
| DataSource.ModesIgnoreOtherSource | mobile/app/src/main/java/com/tecsup/mediturn/data/repository/UnifiedDoctorRepository.kt:32-88 | in a single mode the other source has no influence |
| DataSource.FlowAgreesWithListRead | mobile/app/src/main/java/com/tecsup/mediturn/data/repository/UnifiedDoctorRepository.kt:32-88 | the flow is empty exactly in the hybrid/empty/no-DAO case, and otherwise emits the synchronous read |
| UnifiedDoctors.DataSourceNamesDistinct | mobile/app/src/main/java/com/tecsup/mediturn/data/repository/UnifiedDoctorRepository.kt:159-165 | the three mode names of `DataSourceName` are distinct |
| UnifiedDoctors.UnifiedDoctorRepository.constructor | mobile/app/src/main/java/com/tecsup/mediturn/data/repository/UnifiedDoctorRepository.kt:16-22 | the store keeps the config and the optional local repository |
| UnifiedDoctors.UnifiedDoctorRepository.GetAllDoctorsFlow | mobile/app/src/main/java/com/tecsup/mediturn/data/repository/UnifiedDoctorRepository.kt:32-54 | per mode: the local list, the API list, or in hybrid mode the API list when it is non-empty and otherwise the local one (nothing without a DAO) |
| UnifiedDoctors.UnifiedDoctorRepository.GetAllDoctors | mobile/app/src/main/java/com/tecsup/mediturn/data/repository/UnifiedDoctorRepository.kt:60-88 | per mode: the local list, the API list, or the API list unless empty |
| UnifiedDoctors.UnifiedDoctorRepository.GetDoctorById | mobile/app/src/main/java/com/tecsup/mediturn/data/repository/UnifiedDoctorRepository.kt:95-112 | per mode: the local lookup, the API doctor, or the API doctor unless null |
| UnifiedDoctors.UnifiedDoctorRepository.SearchDoctorsAdvanced | mobile/app/src/main/java/com/tecsup/mediturn/data/repository/UnifiedDoctorRepository.kt:122-154 | per mode: the local search, the filtered API list, or the API list unless empty |
| UnifiedDoctors.UnifiedDoctorRepository.GetCurrentDataSourceName | mobile/app/src/main/java/com/tecsup/mediturn/data/repository/UnifiedDoctorRepository.kt:159-165 | each of the three names is returned exactly in its mode |
| UnifiedDoctors.HybridFallsBackOnFailure | mobile/app/src/main/java/com/tecsup/mediturn/data/repository/UnifiedDoctorRepository.kt:60-88 | a failed fetch gives the local list in hybrid mode and one empty list in remote mode |
| UnifiedAppointments.UnifiedAppointmentRepository.constructor | mobile/app/src/main/java/com/tecsup/mediturn/data/repository/UnifiedAppointmentRepository.kt:14-20 | config and optional local store kept; no remote request yet |
| UnifiedAppointments.UnifiedAppointmentRepository.GetAllAppointments | mobile/app/src/main/java/com/tecsup/mediturn/data/repository/UnifiedAppointmentRepository.kt:28-56 | the mode's list read over the local contents and the remote list |
| UnifiedAppointments.UnifiedAppointmentRepository.GetAllAppointmentsFlow | mobile/app/src/main/java/com/tecsup/mediturn/data/repository/UnifiedAppointmentRepository.kt:61-81 | the mode's flow read |
| UnifiedAppointments.UnifiedAppointmentRepository.GetUpcomingAppointmentsFlow | mobile/app/src/main/java/com/tecsup/mediturn/data/repository/UnifiedAppointmentRepository.kt:86-106 | the mode's flow read, with the local side filtered to upcoming |
| UnifiedAppointments.UnifiedAppointmentRepository.GetPastAppointmentsFlow | mobile/app/src/main/java/com/tecsup/mediturn/data/repository/UnifiedAppointmentRepository.kt:111-131 | the mode's flow read, with the local side filtered to past |
| UnifiedAppointments.UnifiedAppointmentRepository.GetAppointmentById | mobile/app/src/main/java/com/tecsup/mediturn/data/repository/UnifiedAppointmentRepository.kt:136-153 | per mode: the local lookup, the remote answer, or the remote answer unless null |
| UnifiedAppointments.UnifiedAppointmentRepository.AddAppointment | mobile/app/src/main/java/com/tecsup/mediturn/data/repository/UnifiedAppointmentRepository.kt:158-177 | the local store gets the appointment appended in local and hybrid mode; a create request with the placeholder patient id is sent in remote and hybrid mode |
| UnifiedAppointments.UnifiedAppointmentRepository.CancelAppointment | mobile/app/src/main/java/com/tecsup/mediturn/data/repository/UnifiedAppointmentRepository.kt:182-199 | the local store is cancelled by id in local and hybrid mode; a cancel request is sent in remote and hybrid mode |
| UnifiedAppointments.UnifiedAppointmentRepository.RescheduleAppointment | mobile/app/src/main/java/com/tecsup/mediturn/data/repository/UnifiedAppointmentRepository.kt:204-217 | the local store is rescheduled in local and hybrid mode; remote mode changes nothing and sends nothing |
| Routes.CreateRoute | mobile/app/src/main/java/com/tecsup/mediturn/navigation/Routes.kt:6-16 | the path is the route's prefix followed by the id verbatim |
| Routes.AfterCloseOfName | mobile/app/src/main/java/com/tecsup/mediturn/navigation/Routes.kt:6-16 | skipping a placeholder name and its closing brace leaves the rest |
| Routes.SubstituteAfterPrefix | mobile/app/src/main/java/com/tecsup/mediturn/navigation/Routes.kt:6-16 | filling the placeholder of prefix{name} gives the prefix followed by the value |
| Routes.TemplateInstantiates | mobile/app/src/main/java/com/tecsup/mediturn/navigation/Routes.kt:6-16 | replacing the placeholder of each argument template with the id gives exactly `createRoute(id)` |
| Routes.Instantiate | mobile/app/src/main/java/com/tecsup/mediturn/navigation/Routes.kt:6-16 | one argument template, instantiated |
| Routes.CreateRouteInjective | mobile/app/src/main/java/com/tecsup/mediturn/navigation/Routes.kt:7-15 | two built paths are equal exactly when route and id are |
| Routes.TemplatesDistinct | mobile/app/src/main/java/com/tecsup/mediturn/navigation/Routes.kt:3-16 | the seven templates of `Routes.Template` are pairwise distinct |
| Text.Trim | app/src/main/java/com/tecsup/mediturn/ui/screens/booking/BookingViewModel.kt:64 | Kotlin's `trim`: never longer than the input, and empty exactly for a blank string |
| Text.TrimHasNoOuterWhitespace | app/src/main/java/com/tecsup/mediturn/ui/screens/booking/BookingViewModel.kt:64 | a non-empty trimmed string starts and ends with a non-whitespace character |
| Text.TrimIsInnerBlock | app/src/main/java/com/tecsup/mediturn/ui/screens/booking/BookingViewModel.kt:64 | the trimmed string is the block of the input right after its leading whitespace, and only whitespace follows that block |
| Text.Utf16Length | app/src/main/java/com/tecsup/mediturn/ui/screens/booking/BookingViewModel.kt:61-64 | Kotlin's `length` in UTF-16 code units: between the number of characters and twice it |
| Text.Utf16LengthOfBmp | app/src/main/java/com/tecsup/mediturn/ui/screens/booking/BookingViewModel.kt:61-64 | text inside the Basic Multilingual Plane has exactly one code unit per character |
| Text.Utf16LengthOfSupplementary | app/src/main/java/com/tecsup/mediturn/ui/screens/booking/BookingViewModel.kt:61-64 | text made only of supplementary characters has exactly two code units per character |

## Left out

- User interface:
  - All Compose screens, components, navigation graph, activity and theme files.
  - `ThemeViewModel`, which round-trips a preference through DataStore.
- Persistence and backend:
  - Room databases and DAOs. `ORDER BY` clauses are not modelled: the mobile app's local upcoming and past queries, and its listing, are status filters in store order.
  - The Gson time-slot list converter.
  - `ViewModelFactory`, `MediTurnApplication`, the Django backend and `optimize_images.py`.
- Network:
  - Retrofit plumbing (`RetrofitClient`, `MediTurnApiService`). A fetch is a parameter.
  - `RemoteAppointmentRepository` is not part of this model. Its write calls are recorded as a log of requests in `UnifiedAppointments.UnifiedAppointmentRepository.remoteRequests`, and its reads are parameters.
- The mobile app's Room-backed repositories are abstracted:
  - The mobile app builds `DoctorRepository(dao)` and `AppointmentRepository(dao)` over Room; their code is not part of this model.
  - The doctor repository is represented by its answers (`UnifiedDoctors.LocalDoctors`, and the lookup function of the mobile detail screen).
  - The appointment repository is represented by the in-memory store class. Its reschedule follows the DAO update of all rows with the id.
- Concurrency: coroutines, `viewModelScope.launch`, `runBlocking`, `stateIn` and `flatMapLatest`. Each method runs to completion, so intermediate states such as `isLoading = true` before a load are not observable.
- Calls to repository methods the first app version does not define:
  - `AppSearch.SearchViewModel.OnSearchQueryChange`/`SearchDoctors`: the first app version's repository has no `searchDoctors`. The model uses its `searchByName` in its place.
  - `AppAppointments.AppointmentsViewModel.LoadAppointments`: the first app version's repository has no `getUpcomingAppointments` or `getPastAppointments`. The model uses the status split `Appointments.Upcoming`/`Appointments.Past` of `getAllAppointments()` in their place.
  - `AppAppointments.AppointmentsViewModel.RescheduleAppointment`: the first app version's repository has no `rescheduleAppointment(id, date, time)`. The model combines the two strings into a date with a `toDate` parameter and reschedules all rows with the id.
- `AppProfile.ProfileViewModel.constructor`: the first app version's `SampleData.kt` defines no `currentPatient`, so the patient is a parameter.
- `MobileProfile.ProfileViewModel.constructor`: the birth date is the parse of "15/03/2006", which is a parameter.
- `Booking.BookingViewModel.BookAppointment`:
  - The `catch` branch (lines 140-146) is not modelled, because appending to the in-memory store cannot throw.
  - The null check at lines 119-125 is shown unreachable by `Booking.AllFieldsValidMeaning` rather than modelled as a branch.
- `Dto.ImageResourceForDoctor`: the image ids are 1..6 in the order of the six drawables rather than Android resource ids.
- Floating point: `Double` prices and `toDoubleOrNull`. Prices are `real`, and the decimal parse is a `Platform` parameter. Nothing is claimed about rounding.
- Unicode case folding beyond Latin-1: letters outside Basic Latin and Latin-1 are compared as they are.
- The data-class-only files (`Doctor.kt`, `Patient.kt`, `User.kt`, both `TimeSlot.kt`) appear only as datatype shapes. `User` is not used.
